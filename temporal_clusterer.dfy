/**
 * Temporal bundle detection (src/features/bundle-checker/utils/analyzeTransactions.ts).
 *
 * The ledger's signature list for a mint is walked once, in the order the
 * ledger client returned it. Adjacent entries whose block times differ by at
 * most `TimeWindow` accumulate into a run; a larger gap closes the run, and a
 * closed run of two or more signatures becomes a bundle. Each bundle is then
 * resolved against the ledger's transaction bodies: its distinct fee payers,
 * a timestamp, and statistics that the source leaves at zero.
 *
 * The two ledger calls are inputs here: `getSignaturesForAddress` is the
 * sequence `sigs`, and `getTransaction` is a lookup in the map `ledger`
 * (a signature missing from the map resolves to `null`).
 */
module TemporalClusterer {
  import opened Optional

  /** The clustering window, compared with raw `blockTime` values. */
  const TimeWindow: int := 1000

  /** One entry of `getSignaturesForAddress`: a signature and its optional block time. */
  datatype SignatureInfo = SignatureInfo(signature: string, blockTime: Option<int>)

  /** A transaction body: its ordered account keys (the first is the fee payer) and block time. */
  datatype Transaction = Transaction(accountKeys: seq<string>, blockTime: Option<int>)

  /** Per-bundle statistics (src/features/bundle-checker/types/index.ts). */
  datatype BundleStats = BundleStats(
    percentageSupply: real,
    solSpent: real,
    uniqueWallets: nat,
    currentHoldings: real,
    timestamp: int)

  /** One detected bundle: its signatures, statistics and distinct wallets. */
  datatype Bundle = Bundle(transactions: seq<string>, stats: BundleStats, wallets: seq<string>)

  // ---------------------------------------------------------------------------
  // The clustering loop, as a specification over indices
  // ---------------------------------------------------------------------------

  /** JavaScript truthiness of an optional block time: absent and 0 are both false. */
  predicate HasTime(t: Option<int>) {
    t.Some? && t.value != 0
  }

  function Abs(x: int): nat {
    if x < 0 then -x else x
  }

  /** The number of loop iterations: `signatures.length - 1`, none for an empty list. */
  function Steps(sigs: seq<SignatureInfo>): nat {
    if |sigs| == 0 then 0 else |sigs| - 1
  }

  /** Iteration `i` does anything only when entries `i` and `i + 1` both carry a truthy time. */
  predicate Linked(sigs: seq<SignatureInfo>, i: nat)
    requires i + 1 < |sigs|
  {
    HasTime(sigs[i].blockTime) && HasTime(sigs[i + 1].blockTime)
  }

  /** Iteration `i` closes the current run: the pair is linked and its gap exceeds the window. */
  predicate Splits(sigs: seq<SignatureInfo>, i: nat)
    requires i + 1 < |sigs|
  {
    Linked(sigs, i) && Abs(sigs[i].blockTime.value - sigs[i + 1].blockTime.value) > TimeWindow
  }

  /** The loop state: the open run and the runs emitted so far, as indices into `sigs`. */
  datatype ScanState = ScanState(current: seq<nat>, runs: seq<seq<nat>>)

  /** One iteration of the loop body. */
  ghost function Step(sigs: seq<SignatureInfo>, i: nat, st: ScanState): ScanState
    requires i + 1 < |sigs|
  {
    if !Linked(sigs, i) then st
    else
      var cur := st.current + [i];
      if Splits(sigs, i) then ScanState([], if |cur| > 1 then st.runs + [cur] else st.runs)
      else ScanState(cur, st.runs)
  }

  /** The state after the first `n` iterations. */
  ghost function Scan(sigs: seq<SignatureInfo>, n: nat): ScanState
    requires n <= Steps(sigs)
  {
    if n == 0 then ScanState([], []) else Step(sigs, n - 1, Scan(sigs, n - 1))
  }

  /** The index runs the whole loop emits. */
  ghost function Runs(sigs: seq<SignatureInfo>): seq<seq<nat>> {
    Scan(sigs, Steps(sigs)).runs
  }

  // ---------------------------------------------------------------------------
  // An independent description of the runs: blocks of linked indices between splits
  // ---------------------------------------------------------------------------

  ghost predicate Increasing(s: seq<nat>) {
    forall i, j :: 0 <= i < j < |s| ==> s[i] < s[j]
  }

  /** Every element of `a` comes before every element of `b`. */
  ghost predicate Before(a: seq<nat>, b: seq<nat>) {
    forall x, y :: x in a && y in b ==> x < y
  }

  /** The first index after the last split among the first `n` iterations (0 if none). */
  ghost function RunStart(sigs: seq<SignatureInfo>, n: nat): (r: nat)
    requires n <= Steps(sigs)
    ensures r <= n
    ensures forall s :: r <= s < n ==> !Splits(sigs, s)
    ensures r > 0 ==> Splits(sigs, r - 1)
  {
    if n == 0 then 0 else if Splits(sigs, n - 1) then n else RunStart(sigs, n - 1)
  }

  /** The linked indices in `[lo, hi)`, in increasing order. */
  ghost function LinkedIn(sigs: seq<SignatureInfo>, lo: nat, hi: nat): (r: seq<nat>)
    requires hi <= Steps(sigs)
    ensures forall x :: x in r <==> lo <= x < hi && Linked(sigs, x)
    ensures Increasing(r)
    decreases hi
  {
    if hi <= lo then []
    else
      var init := LinkedIn(sigs, lo, hi - 1);
      var r := init + (if Linked(sigs, hi - 1) then [hi - 1] else []);
      assert Increasing(r) by {
        forall i, j | 0 <= i < j < |r| ensures r[i] < r[j] {
          if j >= |init| { assert r[i] in init; }
        }
      }
      r
  }

  /** The block a split at `s` closes: the linked indices since the previous split, `s` included. */
  ghost function Block(sigs: seq<SignatureInfo>, s: nat): seq<nat>
    requires s < Steps(sigs)
  {
    LinkedIn(sigs, RunStart(sigs, s), s + 1)
  }

  /** `r` is a block of two or more indices closed by a split at its last index. */
  ghost predicate ClosedBlock(sigs: seq<SignatureInfo>, r: seq<nat>) {
    2 <= |r| && r[|r| - 1] < Steps(sigs) && Splits(sigs, r[|r| - 1]) && r == Block(sigs, r[|r| - 1])
  }

  /** The open run holds the linked indices since the last split. */
  ghost predicate CurrentOk(sigs: seq<SignatureInfo>, n: nat, st: ScanState)
    requires n <= Steps(sigs)
  {
    st.current == LinkedIn(sigs, RunStart(sigs, n), n)
  }

  ghost predicate RunsClosed(sigs: seq<SignatureInfo>, runs: seq<seq<nat>>) {
    forall k :: 0 <= k < |runs| ==> ClosedBlock(sigs, runs[k])
  }

  /** Every block of two or more indices closed by one of the first `n` iterations is among `runs`. */
  ghost predicate RunsComplete(sigs: seq<SignatureInfo>, n: nat, runs: seq<seq<nat>>)
    requires n <= Steps(sigs)
  {
    forall s :: 0 <= s < n && Splits(sigs, s) && |Block(sigs, s)| >= 2 ==> Block(sigs, s) in runs
  }

  ghost predicate RunsBelow(runs: seq<seq<nat>>, bound: nat) {
    forall k, x :: 0 <= k < |runs| && x in runs[k] ==> x < bound
  }

  ghost predicate RunsInOrder(runs: seq<seq<nat>>) {
    forall k, l :: 0 <= k < l < |runs| ==> Before(runs[k], runs[l])
  }

  /** What holds of the loop state after `n` iterations. */
  ghost predicate ScanInv(sigs: seq<SignatureInfo>, n: nat, st: ScanState)
    requires n <= Steps(sigs)
  {
    && CurrentOk(sigs, n, st)
    && RunsClosed(sigs, st.runs)
    && RunsComplete(sigs, n, st.runs)
    && RunsBelow(st.runs, RunStart(sigs, n))
    && RunsInOrder(st.runs)
  }

  /**
   * One iteration keeps the open run equal to the linked indices since the
   * last split, and emits exactly the block a split closes when it has two
   * or more indices.
   */
  lemma StepEmits(sigs: seq<SignatureInfo>, i: nat, prev: ScanState)
    requires i < Steps(sigs) && CurrentOk(sigs, i, prev)
    ensures CurrentOk(sigs, i + 1, Step(sigs, i, prev))
    ensures Step(sigs, i, prev).runs ==
              if Splits(sigs, i) && |Block(sigs, i)| >= 2 then prev.runs + [Block(sigs, i)] else prev.runs
  {
    var b := RunStart(sigs, i);
    if !Linked(sigs, i) {
      assert RunStart(sigs, i + 1) == b;
      assert LinkedIn(sigs, b, i + 1) == LinkedIn(sigs, b, i) + [];
    } else {
      assert LinkedIn(sigs, b, i + 1) == LinkedIn(sigs, b, i) + [i];
      if Splits(sigs, i) {
        assert prev.current + [i] == Block(sigs, i);
        assert RunStart(sigs, i + 1) == i + 1;
      } else {
        assert RunStart(sigs, i + 1) == b;
      }
    }
  }

  /** Appending a run that lies after every earlier run keeps the runs ordered. */
  lemma AppendKeepsOrder(runs: seq<seq<nat>>, cur: seq<nat>)
    requires RunsInOrder(runs)
    requires forall k :: 0 <= k < |runs| ==> Before(runs[k], cur)
    ensures RunsInOrder(runs + [cur])
  {
    var all := runs + [cur];
    forall k, l | 0 <= k < l < |all| ensures Before(all[k], all[l]) {
      assert all[k] == runs[k];
      if l < |runs| {
        assert all[l] == runs[l];
      } else {
        assert all[l] == cur;
      }
    }
  }

  /** Emitting the block closed at `i` keeps the runs closed, ordered and below the next run start. */
  lemma EmitKeepsShape(sigs: seq<SignatureInfo>, i: nat, runs: seq<seq<nat>>)
    requires i < Steps(sigs) && Splits(sigs, i) && |Block(sigs, i)| >= 2
    requires RunsClosed(sigs, runs) && RunsBelow(runs, RunStart(sigs, i)) && RunsInOrder(runs)
    ensures RunsClosed(sigs, runs + [Block(sigs, i)])
    ensures RunsBelow(runs + [Block(sigs, i)], i + 1)
    ensures RunsInOrder(runs + [Block(sigs, i)])
  {
    var blk := Block(sigs, i);
    var all := runs + [blk];
    var b := RunStart(sigs, i);
    assert blk[|blk| - 1] == i by {
      assert LinkedIn(sigs, b, i + 1) == LinkedIn(sigs, b, i) + [i];
    }
    forall k | 0 <= k < |all| ensures ClosedBlock(sigs, all[k]) {
      if k < |runs| { assert all[k] == runs[k]; }
    }
    forall k, x | 0 <= k < |all| && x in all[k] ensures x < i + 1 {
      if k < |runs| { assert all[k] == runs[k]; }
    }
    forall k | 0 <= k < |runs| ensures Before(runs[k], blk) {
      forall x, y | x in runs[k] && y in blk ensures x < y {
        assert x < b;
      }
    }
    AppendKeepsOrder(runs, blk);
  }

  /** Emitting the block closed at `i` keeps every qualifying block among the runs. */
  lemma EmitKeepsComplete(sigs: seq<SignatureInfo>, i: nat, runs: seq<seq<nat>>)
    requires i < Steps(sigs) && Splits(sigs, i) && |Block(sigs, i)| >= 2
    requires RunsComplete(sigs, i, runs)
    ensures RunsComplete(sigs, i + 1, runs + [Block(sigs, i)])
  {
    var all := runs + [Block(sigs, i)];
    forall s | 0 <= s < i + 1 && Splits(sigs, s) && |Block(sigs, s)| >= 2 ensures Block(sigs, s) in all {
      if s < i { assert Block(sigs, s) in runs; }
    }
  }

  /** An iteration that emits nothing keeps the runs' properties for the next run start. */
  lemma KeepKeepsInv(sigs: seq<SignatureInfo>, i: nat, runs: seq<seq<nat>>)
    requires i < Steps(sigs) && !(Splits(sigs, i) && |Block(sigs, i)| >= 2)
    requires RunsComplete(sigs, i, runs) && RunsBelow(runs, RunStart(sigs, i))
    ensures RunsComplete(sigs, i + 1, runs)
    ensures RunsBelow(runs, RunStart(sigs, i + 1))
  {
    assert RunStart(sigs, i) <= RunStart(sigs, i + 1);
  }

  lemma InvFromParts(sigs: seq<SignatureInfo>, n: nat, st: ScanState)
    requires n <= Steps(sigs)
    requires CurrentOk(sigs, n, st) && RunsClosed(sigs, st.runs) && RunsComplete(sigs, n, st.runs)
    requires RunsBelow(st.runs, RunStart(sigs, n)) && RunsInOrder(st.runs)
    ensures ScanInv(sigs, n, st)
  {
  }

  lemma {:induction false} ScanInvariant(sigs: seq<SignatureInfo>, n: nat)
    requires n <= Steps(sigs)
    ensures ScanInv(sigs, n, Scan(sigs, n))
  {
    if n > 0 {
      var i := n - 1;
      ScanInvariant(sigs, i);
      var prev := Scan(sigs, i);
      var next := Scan(sigs, n);
      assert next == Step(sigs, i, prev);
      StepEmits(sigs, i, prev);
      if Splits(sigs, i) && |Block(sigs, i)| >= 2 {
        assert next.runs == prev.runs + [Block(sigs, i)];
        EmitKeepsShape(sigs, i, prev.runs);
        EmitKeepsComplete(sigs, i, prev.runs);
        assert RunStart(sigs, n) == n;
        InvFromParts(sigs, n, next);
      } else {
        assert next.runs == prev.runs;
        KeepKeepsInv(sigs, i, prev.runs);
        InvFromParts(sigs, n, next);
      }
    }
  }

  /** The indices the scan keeps are valid positions of `sigs`. */
  ghost predicate Bounded(sigs: seq<SignatureInfo>, st: ScanState) {
    && (forall j :: 0 <= j < |st.current| ==> st.current[j] < |sigs|)
    && (forall k, j :: 0 <= k < |st.runs| && 0 <= j < |st.runs[k]| ==> st.runs[k][j] < |sigs|)
  }

  lemma ScanBounded(sigs: seq<SignatureInfo>, n: nat)
    requires n <= Steps(sigs)
    ensures Bounded(sigs, Scan(sigs, n))
  {
    ScanInvariant(sigs, n);
    var st := Scan(sigs, n);
    forall k, j | 0 <= k < |st.runs| && 0 <= j < |st.runs[k]| ensures st.runs[k][j] < |sigs| {
      assert st.runs[k][j] in st.runs[k];
    }
    forall j | 0 <= j < |st.current| ensures st.current[j] < |sigs| {
      assert st.current[j] in st.current;
    }
  }

  // ---------------------------------------------------------------------------
  // Properties of the emitted runs
  // ---------------------------------------------------------------------------

  /** Every emitted run is a block of at least two linked indices, closed by a split at its end. */
  lemma RunsAreClosedBlocks(sigs: seq<SignatureInfo>)
    ensures forall k :: 0 <= k < |Runs(sigs)| ==> ClosedBlock(sigs, Runs(sigs)[k])
    ensures forall k :: 0 <= k < |Runs(sigs)| ==> |Runs(sigs)[k]| >= 2
  {
    ScanInvariant(sigs, Steps(sigs));
  }

  /** Conversely, every block of two or more indices that a split closes is emitted. */
  lemma ClosedBlocksAreEmitted(sigs: seq<SignatureInfo>, s: nat)
    requires s < Steps(sigs) && Splits(sigs, s) && |Block(sigs, s)| >= 2
    ensures Block(sigs, s) in Runs(sigs)
  {
    ScanInvariant(sigs, Steps(sigs));
  }

  /** The runs are pairwise disjoint: each run lies wholly before the next. */
  lemma RunsOrdered(sigs: seq<SignatureInfo>)
    ensures forall k, l :: 0 <= k < l < |Runs(sigs)| ==> Before(Runs(sigs)[k], Runs(sigs)[l])
    ensures forall k, l, x :: 0 <= k < |Runs(sigs)| && 0 <= l < |Runs(sigs)| && k != l && x in Runs(sigs)[k]
              ==> x !in Runs(sigs)[l]
  {
    ScanInvariant(sigs, Steps(sigs));
    var runs := Runs(sigs);
    forall k, l, x | 0 <= k < |runs| && 0 <= l < |runs| && k != l && x in runs[k] ensures x !in runs[l] {
      if k < l { assert Before(runs[k], runs[l]); } else { assert Before(runs[l], runs[k]); }
    }
  }

  /** The last signature is never part of a bundle: every bundled index has a successor. */
  lemma FinalSignatureNeverBundled(sigs: seq<SignatureInfo>)
    ensures forall k, x :: 0 <= k < |Runs(sigs)| && x in Runs(sigs)[k] ==> x + 1 < |sigs|
  {
    ScanInvariant(sigs, Steps(sigs));
  }

  /** The run still open when the loop ends shares no index with any emitted run. */
  lemma OpenRunDropped(sigs: seq<SignatureInfo>)
    ensures forall x, k :: x in Scan(sigs, Steps(sigs)).current && 0 <= k < |Runs(sigs)|
              ==> x !in Runs(sigs)[k]
  {
    ScanInvariant(sigs, Steps(sigs));
  }

  /** Fewer than two signatures: the loop never runs and nothing is emitted. */
  lemma ShortListHasNoBundles(sigs: seq<SignatureInfo>)
    requires |sigs| < 2
    ensures Runs(sigs) == []
  {
  }

  /** The first split at or after `y`, given that there is one at `s0`. */
  lemma {:induction false} FirstSplitFrom(sigs: seq<SignatureInfo>, y: nat, s0: nat) returns (s: nat)
    requires y <= s0 < Steps(sigs) && Splits(sigs, s0)
    ensures y <= s <= s0 && Splits(sigs, s)
    ensures forall t :: y <= t < s ==> !Splits(sigs, t)
    decreases s0
  {
    if exists t :: y <= t < s0 && Splits(sigs, t) {
      var t :| y <= t < s0 && Splits(sigs, t);
      s := FirstSplitFrom(sigs, y, t);
    } else {
      s := s0;
    }
  }

  /** Two indices share a bundle only if both are linked, no split separates them and a split follows. */
  lemma TogetherOnlyIf(sigs: seq<SignatureInfo>, x: nat, y: nat, k: nat)
    requires x < y < Steps(sigs)
    requires k < |Runs(sigs)| && x in Runs(sigs)[k] && y in Runs(sigs)[k]
    ensures Linked(sigs, x) && Linked(sigs, y)
    ensures forall s :: x <= s < y ==> !Splits(sigs, s)
    ensures exists s :: y <= s < Steps(sigs) && Splits(sigs, s)
  {
    RunsAreClosedBlocks(sigs);
    var r := Runs(sigs)[k];
    var e := r[|r| - 1];
    assert ClosedBlock(sigs, r);
    assert r == LinkedIn(sigs, RunStart(sigs, e), e + 1);
  }

  /** Conversely, two linked indices with no split between them and a split after them share a bundle. */
  lemma TogetherIf(sigs: seq<SignatureInfo>, x: nat, y: nat)
    requires x < y < Steps(sigs)
    requires Linked(sigs, x) && Linked(sigs, y)
    requires forall s :: x <= s < y ==> !Splits(sigs, s)
    requires exists s :: y <= s < Steps(sigs) && Splits(sigs, s)
    ensures exists k :: 0 <= k < |Runs(sigs)| && x in Runs(sigs)[k] && y in Runs(sigs)[k]
  {
    var s0 :| y <= s0 < Steps(sigs) && Splits(sigs, s0);
    var s := FirstSplitFrom(sigs, y, s0);
    var b := RunStart(sigs, s);
    assert b <= x;
    var blk := Block(sigs, s);
    assert x in blk && y in blk;
    assert |blk| >= 2 by {
      var i :| 0 <= i < |blk| && blk[i] == x;
      var j :| 0 <= j < |blk| && blk[j] == y;
      assert i != j;
    }
    ClosedBlocksAreEmitted(sigs, s);
    var runs := Runs(sigs);
    var k :| 0 <= k < |runs| && runs[k] == blk;
    assert x in runs[k] && y in runs[k];
  }

  /** A pair with an absent or zero block time adds nothing and leaves the open run as it was. */
  lemma MissingTimeSkipsPair(sigs: seq<SignatureInfo>, i: nat)
    requires i < Steps(sigs)
    requires !HasTime(sigs[i].blockTime) || !HasTime(sigs[i + 1].blockTime)
    ensures Scan(sigs, i + 1) == Scan(sigs, i)
  {
  }

  /** The window is inclusive: a gap of exactly `TimeWindow` keeps a pair together. */
  lemma WindowIsInclusive()
    ensures var sigs := [SignatureInfo("a", Some(1)), SignatureInfo("b", Some(1001)), SignatureInfo("c", Some(5000))];
            Runs(sigs) == [[0, 1]]
    ensures var sigs := [SignatureInfo("a", Some(1)), SignatureInfo("b", Some(1002)), SignatureInfo("c", Some(5000))];
            Runs(sigs) == []
  {
    var sigs := [SignatureInfo("a", Some(1)), SignatureInfo("b", Some(1001)), SignatureInfo("c", Some(5000))];
    assert Linked(sigs, 0) && !Splits(sigs, 0) && Splits(sigs, 1);
    assert Scan(sigs, 1) == ScanState([0], []);
    assert [0] + [1] == [0, 1];
    assert Scan(sigs, 2) == ScanState([], [[0, 1]]);
    var far := [SignatureInfo("a", Some(1)), SignatureInfo("b", Some(1002)), SignatureInfo("c", Some(5000))];
    assert Splits(far, 0) && Splits(far, 1);
    assert Scan(far, 1) == ScanState([], []);
    assert Scan(far, 2) == ScanState([], []);
  }

  // ---------------------------------------------------------------------------
  // Concatenation of the runs
  // ---------------------------------------------------------------------------

  ghost function Flatten(runs: seq<seq<nat>>): (r: seq<nat>)
    ensures forall x :: x in r <==> exists k :: 0 <= k < |runs| && x in runs[k]
  {
    if runs == [] then []
    else
      var rest := Flatten(runs[1..]);
      assert forall x :: x in runs[0] + rest ==> exists k :: 0 <= k < |runs| && x in runs[k] by {
        forall x | x in runs[0] + rest ensures exists k :: 0 <= k < |runs| && x in runs[k] {
          if x !in runs[0] {
            var k :| 0 <= k < |runs[1..]| && x in runs[1..][k];
            assert x in runs[k + 1];
          }
        }
      }
      assert forall k, x :: 0 <= k < |runs| && x in runs[k] ==> x in runs[0] + rest by {
        forall k, x | 0 <= k < |runs| && x in runs[k] ensures x in runs[0] + rest {
          if k > 0 { assert runs[1..][k - 1] == runs[k]; }
        }
      }
      runs[0] + rest
  }

  lemma IncreasingAppend(a: seq<nat>, b: seq<nat>)
    requires Increasing(a) && Increasing(b) && Before(a, b)
    ensures Increasing(a + b)
  {
    var c := a + b;
    forall i, j | 0 <= i < j < |c| ensures c[i] < c[j] {
      if j < |a| {
      } else if i < |a| {
        assert c[i] in a && c[j] in b;
      } else {
        assert c[i] == b[i - |a|] && c[j] == b[j - |a|];
      }
    }
  }

  lemma {:induction false} FlattenIncreasing(runs: seq<seq<nat>>)
    requires forall k :: 0 <= k < |runs| ==> Increasing(runs[k])
    requires forall k, l :: 0 <= k < l < |runs| ==> Before(runs[k], runs[l])
    ensures Increasing(Flatten(runs))
  {
    if runs != [] {
      var tail := runs[1..];
      assert forall k, l :: 0 <= k < l < |tail| ==> Before(tail[k], tail[l]) by {
        forall k, l | 0 <= k < l < |tail| ensures Before(tail[k], tail[l]) {
          assert tail[k] == runs[k + 1] && tail[l] == runs[l + 1];
        }
      }
      FlattenIncreasing(tail);
      assert Before(runs[0], Flatten(tail)) by {
        forall x, y | x in runs[0] && y in Flatten(tail) ensures x < y {
          var l :| 0 <= l < |tail| && y in tail[l];
          assert Before(runs[0], runs[l + 1]);
        }
      }
      IncreasingAppend(runs[0], Flatten(tail));
    }
  }

  /** Concatenated, the runs list strictly increasing indices: a subsequence of the input, in input order. */
  lemma RunsFormSubsequence(sigs: seq<SignatureInfo>)
    ensures Increasing(Flatten(Runs(sigs)))
    ensures forall x :: x in Flatten(Runs(sigs)) ==> x + 1 < |sigs|
  {
    ScanInvariant(sigs, Steps(sigs));
    FlattenIncreasing(Runs(sigs));
  }

  // ---------------------------------------------------------------------------
  // The clustering loop itself
  // ---------------------------------------------------------------------------

  /** The signatures at the given indices. */
  function SignaturesAt(sigs: seq<SignatureInfo>, idx: seq<nat>): (r: seq<string>)
    requires forall k :: 0 <= k < |idx| ==> idx[k] < |sigs|
    ensures |r| == |idx|
    ensures forall k :: 0 <= k < |idx| ==> r[k] == sigs[idx[k]].signature
  {
    seq(|idx|, k requires 0 <= k < |idx| => sigs[idx[k]].signature)
  }

  /**
   * Lines 13-31: groups adjacent signatures into bundles. The result lists,
   * in order, the signatures of each emitted run.
   */
  method GroupSignatures(sigs: seq<SignatureInfo>) returns (bundles: seq<seq<string>>)
    ensures |bundles| == |Runs(sigs)|
    ensures Bounded(sigs, ScanState([], Runs(sigs)))
    ensures forall k :: 0 <= k < |bundles| ==> bundles[k] == SignaturesAt(sigs, Runs(sigs)[k])
    ensures forall k :: 0 <= k < |bundles| ==> |bundles[k]| >= 2
  {
    var current: seq<string> := [];
    bundles := [];
    var i := 0;
    ScanBounded(sigs, 0);
    while i + 1 < |sigs|
      invariant i <= Steps(sigs)
      invariant Bounded(sigs, Scan(sigs, i))
      invariant current == SignaturesAt(sigs, Scan(sigs, i).current)
      invariant |bundles| == |Scan(sigs, i).runs|
      invariant forall k :: 0 <= k < |bundles| ==> bundles[k] == SignaturesAt(sigs, Scan(sigs, i).runs[k])
    {
      ScanBounded(sigs, i + 1);
      var currentTx := sigs[i];
      var nextTx := sigs[i + 1];
      if !HasTime(currentTx.blockTime) || !HasTime(nextTx.blockTime) {
        i := i + 1;
        continue;
      }
      ghost var st := Scan(sigs, i);
      assert SignaturesAt(sigs, st.current + [i]) == current + [currentTx.signature];
      current := current + [currentTx.signature];
      if Abs(currentTx.blockTime.value - nextTx.blockTime.value) > TimeWindow {
        if |current| > 1 {
          bundles := bundles + [current];
        }
        current := [];
      }
      i := i + 1;
    }
    assert i == Steps(sigs);
    RunsAreClosedBlocks(sigs);
  }

  // ---------------------------------------------------------------------------
  // Resolving a bundle against the ledger (lines 34-61)
  // ---------------------------------------------------------------------------

  /** `connection.getTransaction(sig)`: absent (`null`) when the ledger has no body for it. */
  function Fetch(ledger: map<string, Transaction>, sig: string): Option<Transaction> {
    if sig in ledger then Some(ledger[sig]) else None
  }

  /** `Promise.all(bundleTxs.map(getTransaction))`, as an order-preserving map. */
  function FetchAll(ledger: map<string, Transaction>, txs: seq<string>): (r: seq<Option<Transaction>>)
    ensures |r| == |txs|
    ensures forall i :: 0 <= i < |txs| ==> r[i] == Fetch(ledger, txs[i])
  {
    seq(|txs|, i requires 0 <= i < |txs| => Fetch(ledger, txs[i]))
  }

  /** No fetched body has an empty key list (reading `accountKeys[0]` of one throws). */
  predicate Signable(txData: seq<Option<Transaction>>) {
    forall i :: 0 <= i < |txData| && txData[i].Some? ==> |txData[i].value.accountKeys| > 0
  }

  /** The first account key of every fetched body, in order, skipping absent ones. */
  function FirstSigners(txData: seq<Option<Transaction>>): (r: seq<string>)
    requires Signable(txData)
    ensures forall w :: w in r <==>
              exists i :: 0 <= i < |txData| && txData[i].Some? && txData[i].value.accountKeys[0] == w
  {
    if txData == [] then []
    else
      var init := txData[..|txData| - 1];
      var last := txData[|txData| - 1];
      assert forall i :: 0 <= i < |init| ==> init[i] == txData[i];
      FirstSigners(init) + (if last.Some? then [last.value.accountKeys[0]] else [])
  }

  predicate NoDuplicates(s: seq<string>) {
    forall i, j :: 0 <= i < j < |s| ==> s[i] != s[j]
  }

  /** The distinct elements of `s` in order of first occurrence: a JavaScript `Set`'s iteration order. */
  function Distinct(s: seq<string>): (r: seq<string>)
    ensures NoDuplicates(r)
    ensures forall w :: w in r <==> w in s
  {
    if s == [] then []
    else
      var d := Distinct(s[..|s| - 1]);
      var w := s[|s| - 1];
      assert forall v :: v in s <==> v in s[..|s| - 1] || v == w by {
        assert s == s[..|s| - 1] + [w];
      }
      if w in d then d else d + [w]
  }

  lemma DistinctSnoc(s: seq<string>, w: string)
    ensures Distinct(s + [w]) == if w in Distinct(s) then Distinct(s) else Distinct(s) + [w]
  {
    assert (s + [w])[..|s|] == s;
  }

  lemma FirstSignersSnoc(txData: seq<Option<Transaction>>, t: Option<Transaction>)
    requires Signable(txData) && (t.Some? ==> |t.value.accountKeys| > 0)
    ensures Signable(txData + [t])
    ensures FirstSigners(txData + [t]) == FirstSigners(txData) + (if t.Some? then [t.value.accountKeys[0]] else [])
  {
    var all := txData + [t];
    assert forall i :: 0 <= i < |txData| ==> txData[i] == all[i];
    assert all[..|txData|] == txData;
  }

  /** One iteration of the wallet loop, stated on the prefix it has consumed. */
  lemma CollectStep(prefix: seq<Option<Transaction>>, t: Option<Transaction>, seen: seq<string>)
    requires Signable(prefix) && seen == Distinct(FirstSigners(prefix))
    requires t.Some? ==> |t.value.accountKeys| > 0
    ensures Signable(prefix + [t])
    ensures Distinct(FirstSigners(prefix + [t])) ==
              if t.Some? && t.value.accountKeys[0] !in seen then seen + [t.value.accountKeys[0]] else seen
  {
    FirstSignersSnoc(prefix, t);
    if t.Some? {
      DistinctSnoc(FirstSigners(prefix), t.value.accountKeys[0]);
    } else {
      assert FirstSigners(prefix) + [] == FirstSigners(prefix);
    }
  }

  /**
   * Lines 40-47: the `forEach` that adds each fetched body's first account key
   * to a set of wallets, skipping absent bodies. An empty key list throws,
   * rejecting the whole analysis (`None`).
   */
  method CollectWallets(txData: seq<Option<Transaction>>) returns (wallets: Option<seq<string>>)
    ensures wallets.None? <==> !Signable(txData)
    ensures wallets.Some? ==> Signable(txData) && wallets.value == Distinct(FirstSigners(txData))
  {
    var seen: seq<string> := [];
    var i := 0;
    while i < |txData|
      invariant 0 <= i <= |txData|
      invariant Signable(txData[..i])
      invariant seen == Distinct(FirstSigners(txData[..i]))
    {
      assert txData[..i + 1] == txData[..i] + [txData[i]];
      if txData[i].Some? && |txData[i].value.accountKeys| == 0 {
        return None;
      }
      CollectStep(txData[..i], txData[i], seen);
      if txData[i].Some? && txData[i].value.accountKeys[0] !in seen {
        seen := seen + [txData[i].value.accountKeys[0]];
      }
      i := i + 1;
    }
    assert txData[..i] == txData;
    return Some(seen);
  }

  /** Line 56: `txData[0]?.blockTime || 0`. */
  function Timestamp(txData: seq<Option<Transaction>>): (r: int)
    ensures r != 0 ==> |txData| > 0 && txData[0].Some? && txData[0].value.blockTime == Some(r)
    ensures |txData| > 0 && txData[0].Some? && txData[0].value.blockTime.Some? ==> r == txData[0].value.blockTime.value
  {
    if |txData| > 0 && txData[0].Some? && HasTime(txData[0].value.blockTime) then txData[0].value.blockTime.value
    else 0
  }

  /** What a resolved bundle holds for the signatures `txs`. */
  ghost predicate ResolvedFrom(ledger: map<string, Transaction>, txs: seq<string>, b: Bundle)
    requires Signable(FetchAll(ledger, txs))
  {
    var txData := FetchAll(ledger, txs);
    && b.transactions == txs
    && b.wallets == Distinct(FirstSigners(txData))
    && b.stats == BundleStats(0.0, 0.0, |b.wallets|, 0.0, Timestamp(txData))
  }

  /** Lines 35-60: resolves one bundle's transactions into its statistics. */
  method ResolveBundle(ledger: map<string, Transaction>, txs: seq<string>) returns (b: Option<Bundle>)
    ensures b.None? <==> !Signable(FetchAll(ledger, txs))
    ensures b.Some? ==> Signable(FetchAll(ledger, txs)) && ResolvedFrom(ledger, txs, b.value)
    ensures b.Some? ==> b.value.stats.uniqueWallets == |b.value.wallets| && NoDuplicates(b.value.wallets)
  {
    var txData := FetchAll(ledger, txs);
    var wallets := CollectWallets(txData);
    if wallets.None? {
      return None;
    }
    var solSpent := 0.0;
    var stats := BundleStats(0.0, solSpent, |wallets.value|, 0.0, Timestamp(txData));
    return Some(Bundle(txs, stats, wallets.value));
  }

  /**
   * `analyzeTransactions`: clusters the signatures, then resolves every
   * bundle. The result is absent when resolving any bundle throws.
   */
  method AnalyzeTransactions(sigs: seq<SignatureInfo>, ledger: map<string, Transaction>)
    returns (r: Option<seq<Bundle>>)
    ensures Bounded(sigs, ScanState([], Runs(sigs)))
    ensures r.None? <==>
              exists k :: 0 <= k < |Runs(sigs)| && !Signable(FetchAll(ledger, SignaturesAt(sigs, Runs(sigs)[k])))
    ensures r.Some? ==> |r.value| == |Runs(sigs)|
    ensures r.Some? ==> forall k :: 0 <= k < |r.value| ==>
              var txs := SignaturesAt(sigs, Runs(sigs)[k]);
              Signable(FetchAll(ledger, txs)) && ResolvedFrom(ledger, txs, r.value[k])
    ensures r.Some? ==> forall k :: 0 <= k < |r.value| ==>
              |r.value[k].transactions| >= 2 && r.value[k].stats.uniqueWallets == |r.value[k].wallets|
  {
    ScanBounded(sigs, Steps(sigs));
    var groups := GroupSignatures(sigs);
    var analyzed: seq<Bundle> := [];
    var k := 0;
    while k < |groups|
      invariant k <= |groups|
      invariant |analyzed| == k
      invariant forall j :: 0 <= j < k ==>
                  Signable(FetchAll(ledger, groups[j])) && ResolvedFrom(ledger, groups[j], analyzed[j])
    {
      var b := ResolveBundle(ledger, groups[k]);
      if b.None? {
        return None;
      }
      analyzed := analyzed + [b.value];
      k := k + 1;
    }
    return Some(analyzed);
  }
}
