/**
 * Holder-concentration bundle detection (src/server/actions/bundle.ts).
 *
 * Every top holder that owns more than 1% of the mint's supply becomes a
 * bundle record of its own (one per owner, the first such holding wins); the
 * records are sorted by supply share, largest first, and summed into an
 * analysis. A failed fetch of the mint or of its holders yields no analysis.
 *
 * The ledger lookups `getMintAccountInfo` and `getHoldersClassification` are
 * inputs (`None` when the call throws), as is the clock reading `Date.now()`.
 * Amounts are real numbers.
 */
module HolderBundles {
  import opened Optional
  import Text

  /** A holder is a bundle candidate when its share of the supply exceeds this fraction. */
  const ConcentrationThreshold: real := 0.01

  /** The classification text that marks a launch-platform bundle. */
  const PumpfunMarker: string := "pumpfun"

  /** Raw supply and decimal precision of a mint. */
  datatype MintInfo = MintInfo(supply: nat, decimals: nat)

  /** One top holder: its owner wallet, balance and optional classification label. */
  datatype Holder = Holder(owner: string, balance: real, classification: Option<string>)

  /** The record kept for each concentrated holder (lines 7-15). */
  datatype BundleStats = BundleStats(
    bundleAddress: string,
    supplyPercentage: real,
    solSpent: real,
    uniqueWallets: nat,
    currentHoldings: real,
    isPumpfunBundle: bool,
    timestamp: int)

  /** The analysis returned for a mint (lines 17-24); `largestBundle` is `None` for `null`. */
  datatype MintBundleAnalysis = MintBundleAnalysis(
    mintAddress: string,
    totalBundles: nat,
    totalSolSpent: real,
    totalUniqueWallets: nat,
    largestBundle: Option<BundleStats>,
    bundles: seq<BundleStats>)

  // ---------------------------------------------------------------------------
  // Supply and per-holder records
  // ---------------------------------------------------------------------------

  function Pow10(d: nat): (r: real)
    ensures r >= 1.0
  {
    if d == 0 then 1.0 else 10.0 * Pow10(d - 1)
  }

  /** Line 34: `supply / 10 ** decimals`, the supply in whole tokens. */
  function TotalSupply(m: MintInfo): (r: real)
    requires m.supply > 0
    ensures r > 0.0
    ensures r * Pow10(m.decimals) == m.supply as real
  {
    m.supply as real / Pow10(m.decimals)
  }

  /** Line 50: the holder's balance is more than 1% of the supply (strictly). */
  predicate Concentrated(h: Holder, totalSupply: real)
    requires totalSupply > 0.0
  {
    h.balance / totalSupply > ConcentrationThreshold
  }

  /** Line 59: the classification is present and, lower-cased, contains "pumpfun". */
  function IsPumpfun(classification: Option<string>): (r: bool)
    ensures r <==> classification.Some? &&
                   exists i :: Text.OccursAt(Text.Lower(classification.value), PumpfunMarker, i)
  {
    classification.Some? && Text.Contains(Text.Lower(classification.value), PumpfunMarker)
  }

  /** The label test ignores letter case. */
  lemma IsPumpfunIgnoresCase(text: string)
    ensures IsPumpfun(Some(text)) == IsPumpfun(Some(Text.Lower(text)))
  {
    Text.LowerIdempotent(text);
  }

  lemma IsPumpfunExamples()
    ensures IsPumpfun(Some("PumpFun AMM"))
    ensures !IsPumpfun(Some("pump fun"))
    ensures !IsPumpfun(None)
  {
    var l := Text.Lower("PumpFun AMM");
    assert l[0..7] == PumpfunMarker;
    assert Text.OccursAt(l, PumpfunMarker, 0);
    var m := Text.Lower("pump fun");
    assert m == "pump fun";
    assert m[0..7][4] != PumpfunMarker[4];
    assert m[1..8][0] != PumpfunMarker[0];
  }

  /** Lines 53-61: the record built for one holder, stamped with the time `now`. */
  function StatsFor(h: Holder, totalSupply: real, now: int): (r: BundleStats)
    requires totalSupply > 0.0
    ensures r.supplyPercentage * totalSupply == h.balance * 100.0
    ensures r.supplyPercentage > 1.0 <==> Concentrated(h, totalSupply)
    ensures r.bundleAddress == h.owner && r.currentHoldings == h.balance
    ensures r.uniqueWallets == 1 && r.solSpent == 2.0 * h.balance && r.timestamp == now
    ensures r.isPumpfunBundle == IsPumpfun(h.classification)
  {
    BundleStats(
      bundleAddress := h.owner,
      supplyPercentage := (h.balance / totalSupply) * 100.0,
      solSpent := h.balance * 2.0,
      uniqueWallets := 1,
      currentHoldings := h.balance,
      isPumpfunBundle := IsPumpfun(h.classification),
      timestamp := now)
  }

  // ---------------------------------------------------------------------------
  // The holder loop (lines 43-66)
  // ---------------------------------------------------------------------------

  /**
   * The records the loop produces from `holders` when the owners in `seen`
   * have already been processed: a holder whose owner is already processed
   * is skipped, and a concentrated holder yields a record and marks its owner.
   */
  function Select(holders: seq<Holder>, totalSupply: real, now: int, seen: set<string>): seq<BundleStats>
    requires totalSupply > 0.0
  {
    if holders == [] then []
    else
      var h := holders[0];
      if h.owner in seen then Select(holders[1..], totalSupply, now, seen)
      else if Concentrated(h, totalSupply) then
        [StatsFor(h, totalSupply, now)] + Select(holders[1..], totalSupply, now, seen + {h.owner})
      else Select(holders[1..], totalSupply, now, seen)
  }

  predicate DistinctOwners(bundles: seq<BundleStats>) {
    forall i, j :: 0 <= i < j < |bundles| ==> bundles[i].bundleAddress != bundles[j].bundleAddress
  }

  /** No owner gets two records, and no record belongs to an owner processed before. */
  lemma {:induction false} SelectOwnersDistinct(holders: seq<Holder>, totalSupply: real, now: int, seen: set<string>)
    requires totalSupply > 0.0
    ensures DistinctOwners(Select(holders, totalSupply, now, seen))
    ensures forall b :: b in Select(holders, totalSupply, now, seen) ==> b.bundleAddress !in seen
  {
    if holders != [] {
      var h := holders[0];
      var tail := holders[1..];
      if h.owner in seen || !Concentrated(h, totalSupply) {
        SelectOwnersDistinct(tail, totalSupply, now, seen);
      } else {
        SelectOwnersDistinct(tail, totalSupply, now, seen + {h.owner});
        var rest := Select(tail, totalSupply, now, seen + {h.owner});
        var all := [StatsFor(h, totalSupply, now)] + rest;
        forall i, j | 0 <= i < j < |all| ensures all[i].bundleAddress != all[j].bundleAddress {
          assert all[j] == rest[j - 1] && all[j] in rest;
          if i > 0 { assert all[i] == rest[i - 1]; }
        }
      }
    }
  }

  /**
   * An owner gets a record exactly when it was not processed before and at
   * least one of its holdings is concentrated; a small holding earlier in the
   * list does not block a concentrated one later.
   */
  lemma {:induction false} SelectOwnerIff(holders: seq<Holder>, totalSupply: real, now: int, seen: set<string>, owner: string)
    requires totalSupply > 0.0
    ensures (exists b :: b in Select(holders, totalSupply, now, seen) && b.bundleAddress == owner)
        <==> owner !in seen && exists j :: 0 <= j < |holders| && holders[j].owner == owner && Concentrated(holders[j], totalSupply)
  {
    if holders != [] {
      var h := holders[0];
      var tail := holders[1..];
      var inTail := exists j :: 0 <= j < |tail| && tail[j].owner == owner && Concentrated(tail[j], totalSupply);
      var inAll := exists j :: 0 <= j < |holders| && holders[j].owner == owner && Concentrated(holders[j], totalSupply);
      assert inAll <==> inTail || (h.owner == owner && Concentrated(h, totalSupply)) by {
        if inAll {
          var j :| 0 <= j < |holders| && holders[j].owner == owner && Concentrated(holders[j], totalSupply);
          if j > 0 { assert tail[j - 1] == holders[j]; }
        }
        if inTail {
          var j :| 0 <= j < |tail| && tail[j].owner == owner && Concentrated(tail[j], totalSupply);
          assert holders[j + 1] == tail[j];
        }
      }
      if h.owner in seen || !Concentrated(h, totalSupply) {
        SelectOwnerIff(tail, totalSupply, now, seen, owner);
      } else {
        SelectOwnerIff(tail, totalSupply, now, seen + {h.owner}, owner);
        var x := StatsFor(h, totalSupply, now);
        var rest := Select(tail, totalSupply, now, seen + {h.owner});
        assert Select(holders, totalSupply, now, seen) == [x] + rest;
        assert forall b :: b in [x] + rest <==> b == x || b in rest;
      }
    }
  }

  /**
   * Each record is built from the first concentrated holding of its owner,
   * so its supply share exceeds 1%.
   */
  lemma {:induction false} SelectRecordsFromFirstConcentrated(holders: seq<Holder>, totalSupply: real, now: int, seen: set<string>, k: nat)
    requires totalSupply > 0.0
    requires k < |Select(holders, totalSupply, now, seen)|
    ensures exists j :: && 0 <= j < |holders|
              && Select(holders, totalSupply, now, seen)[k] == StatsFor(holders[j], totalSupply, now)
              && Concentrated(holders[j], totalSupply)
              && holders[j].owner !in seen
              && forall i :: 0 <= i < j && holders[i].owner == holders[j].owner ==> !Concentrated(holders[i], totalSupply)
    ensures Select(holders, totalSupply, now, seen)[k].supplyPercentage > 1.0
  {
    var h := holders[0];
    var tail := holders[1..];
    var sel := Select(holders, totalSupply, now, seen);
    if h.owner !in seen && Concentrated(h, totalSupply) && k == 0 {
      assert sel[0] == StatsFor(holders[0], totalSupply, now);
    } else {
      var seen' := if h.owner !in seen && Concentrated(h, totalSupply) then seen + {h.owner} else seen;
      var k' := if h.owner !in seen && Concentrated(h, totalSupply) then k - 1 else k;
      assert sel[k] == Select(tail, totalSupply, now, seen')[k'];
      SelectRecordsFromFirstConcentrated(tail, totalSupply, now, seen', k');
      var j :| 0 <= j < |tail|
              && Select(tail, totalSupply, now, seen')[k'] == StatsFor(tail[j], totalSupply, now)
              && Concentrated(tail[j], totalSupply)
              && tail[j].owner !in seen'
              && forall i :: 0 <= i < j && tail[i].owner == tail[j].owner ==> !Concentrated(tail[i], totalSupply);
      assert holders[j + 1] == tail[j];
      forall i | 0 <= i < j + 1 && holders[i].owner == holders[j + 1].owner
        ensures !Concentrated(holders[i], totalSupply)
      {
        if i > 0 { assert holders[i] == tail[i - 1]; }
      }
    }
  }

  /**
   * Lines 43-66: walks the holders in order, keeping a record for each
   * concentrated holder whose owner was not processed before.
   */
  method SelectHolders(holders: seq<Holder>, totalSupply: real, now: int) returns (bundles: seq<BundleStats>)
    requires totalSupply > 0.0
    ensures bundles == Select(holders, totalSupply, now, {})
    ensures DistinctOwners(bundles)
    ensures forall k :: 0 <= k < |bundles| ==> bundles[k].supplyPercentage > 1.0 && bundles[k].uniqueWallets == 1
  {
    bundles := [];
    var processedWallets: set<string> := {};
    var i := 0;
    while i < |holders|
      invariant 0 <= i <= |holders|
      invariant bundles + Select(holders[i..], totalSupply, now, processedWallets) == Select(holders, totalSupply, now, {})
    {
      var holder := holders[i];
      assert holders[i..][1..] == holders[i + 1..];
      if holder.owner in processedWallets {
        i := i + 1;
        continue;
      }
      if holder.balance / totalSupply > ConcentrationThreshold {
        var bundleStats := StatsFor(holder, totalSupply, now);
        bundles := bundles + [bundleStats];
        processedWallets := processedWallets + {holder.owner};
      }
      i := i + 1;
    }
    assert holders[i..] == [];
    SelectOwnersDistinct(holders, totalSupply, now, {});
    forall k | 0 <= k < |bundles| ensures bundles[k].supplyPercentage > 1.0 && bundles[k].uniqueWallets == 1 {
      SelectRecordsFromFirstConcentrated(holders, totalSupply, now, {}, k);
    }
  }

  // ---------------------------------------------------------------------------
  // The sort (line 71): stable, by descending supply share
  // ---------------------------------------------------------------------------

  predicate SortedByShare(bundles: seq<BundleStats>) {
    forall i, j :: 0 <= i < j < |bundles| ==> bundles[i].supplyPercentage >= bundles[j].supplyPercentage
  }

  /** Places `x` after every element of `sorted` whose share is at least its own. */
  function Insert(sorted: seq<BundleStats>, x: BundleStats): (r: seq<BundleStats>)
    ensures multiset(r) == multiset(sorted) + multiset{x}
    ensures SortedByShare(sorted) ==> SortedByShare(r)
  {
    if sorted == [] then [x]
    else
      var init := sorted[..|sorted| - 1];
      var last := sorted[|sorted| - 1];
      assert sorted == init + [last];
      if last.supplyPercentage >= x.supplyPercentage then sorted + [x]
      else
        var front := Insert(init, x);
        var r := front + [last];
        assert SortedByShare(sorted) ==> SortedByShare(r) by {
          if SortedByShare(sorted) {
            forall y | y in front ensures y.supplyPercentage >= last.supplyPercentage {
              assert y in multiset(front);
              if y != x {
                assert y in multiset(init);
                var i :| 0 <= i < |init| && init[i] == y;
                assert sorted[i] == y;
              }
            }
            forall i, j | 0 <= i < j < |r| ensures r[i].supplyPercentage >= r[j].supplyPercentage {
              if j == |front| { assert r[i] in front; }
            }
          }
        }
        r
  }

  /** `bundles.sort((a, b) => b.supplyPercentage - a.supplyPercentage)`, as a stable insertion sort. */
  function SortByShare(bundles: seq<BundleStats>): (r: seq<BundleStats>)
    ensures SortedByShare(r)
    ensures multiset(r) == multiset(bundles)
  {
    if bundles == [] then []
    else
      var init := bundles[..|bundles| - 1];
      assert bundles == init + [bundles[|bundles| - 1]];
      Insert(SortByShare(init), bundles[|bundles| - 1])
  }

  /** A list already in order is left exactly as it is (the sort is stable). */
  lemma {:induction false} SortKeepsSortedInput(bundles: seq<BundleStats>)
    requires SortedByShare(bundles)
    ensures SortByShare(bundles) == bundles
  {
    if bundles != [] {
      var init := bundles[..|bundles| - 1];
      SortKeepsSortedInput(init);
      assert bundles == init + [bundles[|bundles| - 1]];
    }
  }

  // ---------------------------------------------------------------------------
  // Totals (lines 73-80)
  // ---------------------------------------------------------------------------

  /** `bundles.reduce((sum, b) => sum + b.solSpent, 0)`. */
  function SumSolSpent(bundles: seq<BundleStats>): real {
    if bundles == [] then 0.0 else SumSolSpent(bundles[..|bundles| - 1]) + bundles[|bundles| - 1].solSpent
  }

  /** `bundles.reduce((sum, b) => sum + b.uniqueWallets, 0)`. */
  function SumUniqueWallets(bundles: seq<BundleStats>): nat {
    if bundles == [] then 0 else SumUniqueWallets(bundles[..|bundles| - 1]) + bundles[|bundles| - 1].uniqueWallets
  }

  lemma {:induction false} SumsOfAppend(a: seq<BundleStats>, b: seq<BundleStats>)
    ensures SumSolSpent(a + b) == SumSolSpent(a) + SumSolSpent(b)
    ensures SumUniqueWallets(a + b) == SumUniqueWallets(a) + SumUniqueWallets(b)
    decreases |b|
  {
    if b != [] {
      var b' := b[..|b| - 1];
      assert (a + b)[..|a + b| - 1] == a + b';
      assert (a + b)[|a + b| - 1] == b[|b| - 1];
      SumsOfAppend(a, b');
      assert SumSolSpent(a + b) == SumSolSpent(a + b') + b[|b| - 1].solSpent;
      assert SumUniqueWallets(a + b) == SumUniqueWallets(a + b') + b[|b| - 1].uniqueWallets;
    } else {
      assert a + b == a;
    }
  }

  lemma {:induction false} SumsOfInsert(sorted: seq<BundleStats>, x: BundleStats)
    ensures SumSolSpent(Insert(sorted, x)) == SumSolSpent(sorted) + x.solSpent
    ensures SumUniqueWallets(Insert(sorted, x)) == SumUniqueWallets(sorted) + x.uniqueWallets
  {
    if sorted != [] {
      var init := sorted[..|sorted| - 1];
      var last := sorted[|sorted| - 1];
      if last.supplyPercentage >= x.supplyPercentage {
        SumsOfAppend(sorted, [x]);
      } else {
        SumsOfInsert(init, x);
        SumsOfAppend(Insert(init, x), [last]);
      }
    }
  }

  /** Sorting changes neither total. */
  lemma {:induction false} SortKeepsTotals(bundles: seq<BundleStats>)
    ensures SumSolSpent(SortByShare(bundles)) == SumSolSpent(bundles)
    ensures SumUniqueWallets(SortByShare(bundles)) == SumUniqueWallets(bundles)
  {
    if bundles != [] {
      var init := bundles[..|bundles| - 1];
      SortKeepsTotals(init);
      SumsOfInsert(SortByShare(init), bundles[|bundles| - 1]);
    }
  }

  /** When every record counts one wallet, the wallet total is the number of records. */
  lemma {:induction false} WalletTotalIsCount(bundles: seq<BundleStats>)
    requires forall b :: b in bundles ==> b.uniqueWallets == 1
    ensures SumUniqueWallets(bundles) == |bundles|
  {
    if bundles != [] {
      WalletTotalIsCount(bundles[..|bundles| - 1]);
    }
  }

  // ---------------------------------------------------------------------------
  // The whole analysis
  // ---------------------------------------------------------------------------

  /**
   * `identifyBundles`: `mint` and `holders` are the results of the two
   * ledger calls (`None` when the call throws), `now` the clock reading.
   */
  method IdentifyBundles(mintAddress: string, mint: Option<MintInfo>, holders: Option<seq<Holder>>, now: int)
    returns (analysis: Option<MintBundleAnalysis>)
    requires mint.Some? ==> mint.value.supply > 0
    ensures analysis.None? <==> mint.None? || holders.None?
    ensures analysis.Some? ==>
              var a := analysis.value;
              var selected := Select(holders.value, TotalSupply(mint.value), now, {});
              && a.mintAddress == mintAddress
              && a.bundles == SortByShare(selected)
              && multiset(a.bundles) == multiset(selected)
              && SortedByShare(a.bundles)
              && a.totalBundles == |a.bundles|
              && a.totalSolSpent == SumSolSpent(a.bundles) == SumSolSpent(selected)
              && a.totalUniqueWallets == SumUniqueWallets(a.bundles) == a.totalBundles
              && (a.bundles == [] <==> a.largestBundle.None?)
              && (a.largestBundle.Some? ==>
                    a.largestBundle.value == a.bundles[0] &&
                    forall b :: b in a.bundles ==> a.largestBundle.value.supplyPercentage >= b.supplyPercentage)
  {
    if mint.None? {
      return None;
    }
    var totalSupply := TotalSupply(mint.value);
    if holders.None? {
      return None;
    }
    var selected := SelectHolders(holders.value, totalSupply, now);
    var bundles := SortByShare(selected);
    SortKeepsTotals(selected);
    assert forall b :: b in bundles ==> b.uniqueWallets == 1 by {
      forall b | b in bundles ensures b.uniqueWallets == 1 {
        assert b in multiset(selected);
      }
    }
    WalletTotalIsCount(bundles);
    var largest := if |bundles| > 0 then Some(bundles[0]) else None;
    analysis := Some(MintBundleAnalysis(
      mintAddress := mintAddress,
      totalBundles := |bundles|,
      totalSolSpent := SumSolSpent(bundles),
      totalUniqueWallets := SumUniqueWallets(bundles),
      largestBundle := largest,
      bundles := bundles));
  }
}
