/** Which scripts the search queries, when it stops, and what that leaves out. */
module GapLimit {
  import opened WalletTypes
  import opened ChainScan

  type ScriptAt = Index -> Script

  /** The end of the next batch, clipped at the largest index. */
  function NextOffset(offset: Index, depth: nat): Index {
    match CheckedAdd(offset, depth)
    case None => LARGEST_INDEX
    case Some(i) => i
  }

  /** The scripts of a half-open range of indexes. */
  function IndexBatch(scriptAt: ScriptAt, from: Index, to: Index): seq<Probe>
    requires from <= to
  {
    seq(to - from, k requires 0 <= k < to - from => Probe(from + k, scriptAt(from + k), None))
  }

  predicate Quiet(server: Server, probes: seq<Probe>) {
    Hits(server, probes) == []
  }

  predicate Stops(server: Server, probes: seq<Probe>, offset: Index, last: Index) {
    (Quiet(server, probes) && offset > last) || offset == LARGEST_INDEX
  }

  /** The batches still to be queried, beginning with one already prepared. */
  function Batches(server: Server, scriptAt: ScriptAt, depth: nat, last: Index,
                   offset: Index, probes: seq<Probe>): seq<seq<Probe>>
    requires depth >= 1
    decreases LARGEST_INDEX - offset
  {
    if Stops(server, probes, offset, last) then [probes] else
      var next := NextOffset(offset, depth);
      [probes] + Batches(server, scriptAt, depth, last, next, IndexBatch(scriptAt, offset, next))
  }

  function FinalOffset(server: Server, scriptAt: ScriptAt, depth: nat, last: Index,
                       offset: Index, probes: seq<Probe>): (final: Index)
    requires depth >= 1
    ensures offset <= final
    decreases LARGEST_INDEX - offset
  {
    if Stops(server, probes, offset, last) then offset else
      var next := NextOffset(offset, depth);
      FinalOffset(server, scriptAt, depth, last, next, IndexBatch(scriptAt, offset, next))
  }

  /** The server answers each of the first n requests. */
  predicate Answered(server: Server, n: nat) {
    n == 0 || (Answered(server, n - 1) && server.answers(n - 1))
  }

  lemma {:induction false} AnsweredEach(server: Server, n: nat)
    ensures Answered(server, n) <==> forall k: nat | k < n :: server.answers(k)
  {
    if n > 0 {
      AnsweredEach(server, n - 1);
    }
  }

  // ----- partition and termination -----

  lemma {:induction false} FlattenCons(a: seq<Probe>, rest: seq<seq<Probe>>)
    ensures Flatten([a] + rest) == a + Flatten(rest)
  {
    var all := [a] + rest;
    if rest == [] {
      assert all[..0] == [];
    } else {
      var init, last := rest[..|rest| - 1], rest[|rest| - 1];
      FlattenCons(a, init);
      assert all[..|all| - 1] == [a] + init && all[|all| - 1] == last;
      assert a + Flatten(init) + last == a + (Flatten(init) + last);
    }
  }

  /** Every index below the final offset is derived exactly once and in order, no
      other index is, and the number of batches is bounded by the index range. */
  lemma {:induction false} BatchesPartition(server: Server, scriptAt: ScriptAt, depth: nat, last: Index,
                                            offset: Index, probes: seq<Probe>)
    requires depth >= 1
    ensures var batches := Batches(server, scriptAt, depth, last, offset, probes);
            var final := FinalOffset(server, scriptAt, depth, last, offset, probes);
      && Flatten(batches) == probes + IndexBatch(scriptAt, offset, final)
      && (|batches| - 2) * depth < LARGEST_INDEX - offset
      && (final > last || final == LARGEST_INDEX)
    decreases LARGEST_INDEX - offset
  {
    var batches := Batches(server, scriptAt, depth, last, offset, probes);
    var final := FinalOffset(server, scriptAt, depth, last, offset, probes);
    if Stops(server, probes, offset, last) {
      assert batches[..0] == [];
      assert IndexBatch(scriptAt, offset, final) == [];
    } else {
      var next := NextOffset(offset, depth);
      var batch := IndexBatch(scriptAt, offset, next);
      var rest := Batches(server, scriptAt, depth, last, next, batch);
      BatchesPartition(server, scriptAt, depth, last, next, batch);
      FlattenCons(probes, rest);
      RangesJoin(scriptAt, offset, next, final);
      assert probes + (batch + IndexBatch(scriptAt, next, final)) == probes + batch + IndexBatch(scriptAt, next, final);
      OneMoreBatch(|rest|, depth, LARGEST_INDEX - next);
    }
  }

  lemma RangesJoin(scriptAt: ScriptAt, a: Index, b: Index, c: Index)
    requires a <= b <= c
    ensures IndexBatch(scriptAt, a, b) + IndexBatch(scriptAt, b, c) == IndexBatch(scriptAt, a, c)
  {
  }

  lemma OneMoreBatch(n: nat, depth: nat, left: int)
    requires depth >= 1 && n >= 1 && (n - 2) * depth < left
    ensures (n - 1) * depth < left + depth
  {
    assert (n - 1) * depth == (n - 2) * depth + depth;
  }

  // ----- where the search stops -----

  /** A multiple of the depth, counted down batch by batch. */
  predicate Aligned(m: nat, depth: nat)
    requires depth >= 1
  {
    m == 0 || (depth <= m && Aligned(m - depth, depth))
  }

  lemma {:induction false} NextAligned(a: nat, m: nat, depth: nat)
    requires depth >= 1 && Aligned(a, depth) && Aligned(m, depth) && a < m
    ensures a + depth <= m
  {
    if a > 0 {
      NextAligned(a - depth, m - depth, depth);
    }
  }

  /** The end of an aligned quiet batch behind the last used index. */
  predicate StopPoint(server: Server, scriptAt: ScriptAt, depth: nat, last: Index, m: Index)
    requires depth >= 1
  {
    && Aligned(m, depth)
    && depth <= m
    && last < m < LARGEST_INDEX
    && Quiet(server, IndexBatch(scriptAt, m - depth, m))
  }

  /** The final offset is the first stop point, or the largest index if there is none. */
  lemma {:induction false} StopsAtFirst(server: Server, scriptAt: ScriptAt, depth: nat, last: Index,
                                        offset: Index, probes: seq<Probe>)
    requires depth >= 1
    requires offset < LARGEST_INDEX ==> Aligned(offset, depth)
    requires 0 < offset < LARGEST_INDEX ==> depth <= offset && probes == IndexBatch(scriptAt, offset - depth, offset)
    ensures var final := FinalOffset(server, scriptAt, depth, last, offset, probes);
      && (final == LARGEST_INDEX || StopPoint(server, scriptAt, depth, last, final))
      && (forall m: Index | offset <= m < final :: !StopPoint(server, scriptAt, depth, last, m))
    decreases LARGEST_INDEX - offset
  {
    if !Stops(server, probes, offset, last) {
      var next := NextOffset(offset, depth);
      StopsAtFirst(server, scriptAt, depth, last, next, IndexBatch(scriptAt, offset, next));
      forall m: Index | offset <= m < next
        ensures !StopPoint(server, scriptAt, depth, last, m)
      {
        if Aligned(m, depth) && m > offset {
          NextAligned(offset, m, depth);
        }
      }
    }
  }

  /** An index below the largest is searched exactly when no aligned quiet batch
      behind the last used index ends at or before it. */
  lemma SearchedExactly(server: Server, scriptAt: ScriptAt, depth: nat, last: Index,
                        tweaks: seq<Probe>, i: Index)
    requires depth >= 1 && i < LARGEST_INDEX
    ensures i < FinalOffset(server, scriptAt, depth, last, 0, tweaks) <==>
            forall m: Index | m <= i :: !StopPoint(server, scriptAt, depth, last, m)
  {
    StopsAtFirst(server, scriptAt, depth, last, 0, tweaks);
  }

  // ----- completeness -----

  predicate Funded(server: Server, scriptAt: ScriptAt, i: Index) {
    server.list(scriptAt(i)) != []
  }

  ghost predicate FundedWithin(server: Server, scriptAt: ScriptAt, from: Index, depth: nat) {
    exists i: Index :: from <= i < from + depth && Funded(server, scriptAt, i)
  }

  /** Section "Address gap limit" of BIP-44: behind the last used index there is no
      gap of depth consecutive unfunded indexes below a funded one. */
  ghost predicate NoGap(server: Server, scriptAt: ScriptAt, depth: nat, last: Index) {
    forall f: Index, j: Index |
      Funded(server, scriptAt, f) && f < LARGEST_INDEX && last < j + depth <= f ::
      FundedWithin(server, scriptAt, j, depth)
  }

  lemma {:induction false} QuietIsUnlisted(server: Server, probes: seq<Probe>)
    ensures Quiet(server, probes) <==> forall p | p in probes :: server.list(p.script) == []
  {
    if probes != [] {
      var init, p := probes[..|probes| - 1], probes[|probes| - 1];
      QuietIsUnlisted(server, init);
      HitsOfAreItems(p, server.list(p.script));
      assert probes == init + [p];
    }
  }

  lemma QuietIsUnfunded(server: Server, scriptAt: ScriptAt, from: Index, to: Index)
    requires from <= to
    ensures Quiet(server, IndexBatch(scriptAt, from, to)) <==>
            forall i: Index | from <= i < to :: !Funded(server, scriptAt, i)
  {
    var batch := IndexBatch(scriptAt, from, to);
    QuietIsUnlisted(server, batch);
    if Quiet(server, batch) {
      forall i: Index | from <= i < to
        ensures !Funded(server, scriptAt, i)
      {
        assert batch[i - from] in batch;
      }
    } else {
      var p :| p in batch && server.list(p.script) != [];
      assert Funded(server, scriptAt, p.index);
    }
  }

  lemma NoGapReaches(server: Server, scriptAt: ScriptAt, depth: nat, last: Index, tweaks: seq<Probe>, f: Index)
    requires depth >= 1 && NoGap(server, scriptAt, depth, last)
    requires Funded(server, scriptAt, f) && f < LARGEST_INDEX
    ensures f < FinalOffset(server, scriptAt, depth, last, 0, tweaks)
  {
    var final := FinalOffset(server, scriptAt, depth, last, 0, tweaks);
    StopsAtFirst(server, scriptAt, depth, last, 0, tweaks);
    if final <= f {
      assert FundedWithin(server, scriptAt, final - depth, depth);
      QuietIsUnfunded(server, scriptAt, final - depth, final);
    }
  }

  lemma NothingBeyond(server: Server, scriptAt: ScriptAt, depth: nat, last: Index, tweaks: seq<Probe>)
    requires depth >= 1 && NoGap(server, scriptAt, depth, last)
    ensures Quiet(server, IndexBatch(scriptAt, FinalOffset(server, scriptAt, depth, last, 0, tweaks), LARGEST_INDEX))
  {
    var final := FinalOffset(server, scriptAt, depth, last, 0, tweaks);
    QuietIsUnfunded(server, scriptAt, final, LARGEST_INDEX);
    forall i: Index | final <= i < LARGEST_INDEX
      ensures !Funded(server, scriptAt, i)
    {
      if Funded(server, scriptAt, i) {
        NoGapReaches(server, scriptAt, depth, last, tweaks, i);
      }
    }
  }

  /** An index that is used, or lies below a used one, is searched exactly when it is not
      the largest. */
  lemma UsedIsSearched(server: Server, scriptAt: ScriptAt, depth: nat, last: Index, tweaks: seq<Probe>, i: Index)
    requires depth >= 1 && i <= last
    requires forall p | p in tweaks :: p.tweak.Some?
    ensures Probe(i, scriptAt(i), None) in Flatten(Batches(server, scriptAt, depth, last, 0, tweaks)) <==>
            i < LARGEST_INDEX
  {
    BatchesPartition(server, scriptAt, depth, last, 0, tweaks);
    var final := FinalOffset(server, scriptAt, depth, last, 0, tweaks);
    var batch := IndexBatch(scriptAt, 0, final);
    if i < LARGEST_INDEX {
      assert batch[i] == Probe(i, scriptAt(i), None);
    }
  }

  lemma QuietAddsNothing(server: Server, probes: seq<Probe>, quiet: seq<Probe>)
    requires Quiet(server, quiet)
    ensures Discoverable(server, probes + quiet) == Discoverable(server, probes)
  {
    HitsAppend(server, probes, quiet);
    assert Hits(server, probes + quiet) == Hits(server, probes);
  }

  /** The search finds exactly what the server lists and can place for the tweaked
      scripts and the indexes below the final offset. */
  lemma SearchFinds(server: Server, scriptAt: ScriptAt, depth: nat, last: Index, tweaks: seq<Probe>,
                    readAddress: Script -> Option<Address>)
    requires depth >= 1
    ensures var final := FinalOffset(server, scriptAt, depth, last, 0, tweaks);
      AbsorbAll(server, Batches(server, scriptAt, depth, last, 0, tweaks), readAddress).outpoints ==
      Discoverable(server, tweaks + IndexBatch(scriptAt, 0, final))
  {
    AbsorbAllEffect(server, Batches(server, scriptAt, depth, last, 0, tweaks), readAddress);
    BatchesPartition(server, scriptAt, depth, last, 0, tweaks);
  }

  /** With no gap, the search finds exactly what querying every index below the
      largest would find, together with all outputs of the tweaked scripts. */
  lemma SearchIsComplete(server: Server, scriptAt: ScriptAt, depth: nat, last: Index, tweaks: seq<Probe>,
                         readAddress: Script -> Option<Address>)
    requires depth >= 1 && NoGap(server, scriptAt, depth, last)
    ensures AbsorbAll(server, Batches(server, scriptAt, depth, last, 0, tweaks), readAddress).outpoints ==
            Discoverable(server, tweaks + IndexBatch(scriptAt, 0, LARGEST_INDEX))
  {
    SearchFinds(server, scriptAt, depth, last, tweaks, readAddress);
    NothingBeyond(server, scriptAt, depth, last, tweaks);
    var final := FinalOffset(server, scriptAt, depth, last, 0, tweaks);
    Beyond(server, scriptAt, tweaks, final);
  }

  lemma Beyond(server: Server, scriptAt: ScriptAt, tweaks: seq<Probe>, final: Index)
    requires Quiet(server, IndexBatch(scriptAt, final, LARGEST_INDEX))
    ensures Discoverable(server, tweaks + IndexBatch(scriptAt, 0, LARGEST_INDEX)) ==
            Discoverable(server, tweaks + IndexBatch(scriptAt, 0, final))
  {
    var searched, beyond := IndexBatch(scriptAt, 0, final), IndexBatch(scriptAt, final, LARGEST_INDEX);
    RangesJoin(scriptAt, 0, final, LARGEST_INDEX);
    QuietAddsNothing(server, tweaks + searched, beyond);
    assert tweaks + searched + beyond == tweaks + (searched + beyond);
  }

  // ----- the rounds of the loop, for any depth -----

  /** Where the loop stands in a round and which scripts it queries there. */
  datatype Round = Round(offset: Index, probes: seq<Probe>)

  function NextRound(scriptAt: ScriptAt, depth: nat, r: Round): Round {
    var next := NextOffset(r.offset, depth);
    Round(next, IndexBatch(scriptAt, r.offset, next))
  }

  function RoundAt(scriptAt: ScriptAt, tweaks: seq<Probe>, depth: nat, round: nat): Round {
    if round == 0 then Round(0, tweaks) else NextRound(scriptAt, depth, RoundAt(scriptAt, tweaks, depth, round - 1))
  }

  predicate Breaks(server: Server, last: Index, r: Round) {
    Stops(server, r.probes, r.offset, last)
  }

  /** The loop leaves this round: it is not answered, or reaches a break. */
  predicate Leaves(server: Server, scriptAt: ScriptAt, tweaks: seq<Probe>, depth: nat, last: Index, round: nat) {
    !server.answers(round) || Breaks(server, last, RoundAt(scriptAt, tweaks, depth, round))
  }

  lemma {:induction false} RoundsAdvance(scriptAt: ScriptAt, tweaks: seq<Probe>, depth: nat, round: nat)
    ensures var offset := RoundAt(scriptAt, tweaks, depth, round).offset;
      if depth == 0 then offset == 0 else offset >= round || offset == LARGEST_INDEX
  {
    if round > 0 {
      RoundsAdvance(scriptAt, tweaks, depth, round - 1);
    }
  }

  lemma BatchesFrom(server: Server, scriptAt: ScriptAt, depth: nat, last: Index, r: Round)
    requires depth >= 1
    ensures var batches := Batches(server, scriptAt, depth, last, r.offset, r.probes);
            var next := NextRound(scriptAt, depth, r);
            var rest := Batches(server, scriptAt, depth, last, next.offset, next.probes);
            var final := FinalOffset(server, scriptAt, depth, last, r.offset, r.probes);
      if Breaks(server, last, r) then batches == [r.probes] && final == r.offset
      else batches == [r.probes] + rest && |rest| >= 1 &&
           final == FinalOffset(server, scriptAt, depth, last, next.offset, next.probes)
  {
  }

  /** Batch k is what this round queries, and only the last batch, at the final offset,
      reaches a break. */
  predicate IsBatch(batches: seq<seq<Probe>>, final: Index, k: nat, reached: Round, breaks: bool) {
    && k < |batches| && batches[k] == reached.probes
    && (breaks <==> k == |batches| - 1)
    && (breaks ==> reached.offset == final)
  }

  /** The same for the batches planned from round r on. */
  predicate Plans(server: Server, scriptAt: ScriptAt, depth: nat, last: Index, r: Round, k: nat, reached: Round)
    requires depth >= 1
  {
    IsBatch(Batches(server, scriptAt, depth, last, r.offset, r.probes),
            FinalOffset(server, scriptAt, depth, last, r.offset, r.probes), k, reached, Breaks(server, last, reached))
  }

  lemma FirstIsPlanned(server: Server, scriptAt: ScriptAt, depth: nat, last: Index, r: Round)
    requires depth >= 1
    ensures Plans(server, scriptAt, depth, last, r, 0, r)
  {
    BatchesFrom(server, scriptAt, depth, last, r);
  }

  lemma BatchShifts(probes: seq<Probe>, rest: seq<seq<Probe>>, final: Index, k: nat, reached: Round, breaks: bool)
    requires IsBatch(rest, final, k, reached, breaks)
    ensures IsBatch([probes] + rest, final, k + 1, reached, breaks)
  {
  }

  lemma NextIsPlanned(server: Server, scriptAt: ScriptAt, depth: nat, last: Index, r: Round, k: nat, reached: Round)
    requires depth >= 1 && !Breaks(server, last, r)
    requires Plans(server, scriptAt, depth, last, NextRound(scriptAt, depth, r), k, reached)
    ensures Plans(server, scriptAt, depth, last, r, k + 1, reached)
  {
    var next := NextRound(scriptAt, depth, r);
    BatchesFrom(server, scriptAt, depth, last, r);
    BatchShifts(r.probes, Batches(server, scriptAt, depth, last, next.offset, next.probes),
                FinalOffset(server, scriptAt, depth, last, next.offset, next.probes), k, reached,
                Breaks(server, last, reached));
  }

  lemma MoreIsPlanned(server: Server, scriptAt: ScriptAt, depth: nat, last: Index, r: Round)
    requires depth >= 1 && |Batches(server, scriptAt, depth, last, r.offset, r.probes)| > 1
    ensures var next := NextRound(scriptAt, depth, r);
      && !Breaks(server, last, r)
      && |Batches(server, scriptAt, depth, last, r.offset, r.probes)| ==
         |Batches(server, scriptAt, depth, last, next.offset, next.probes)| + 1
  {
    BatchesFrom(server, scriptAt, depth, last, r);
  }

  /** For a positive depth the rounds are the planned batches: what round n queries is the
      batch as far behind the first as n is behind the round that began with it. */
  lemma {:induction false} RoundsAreBatches(server: Server, scriptAt: ScriptAt, tweaks: seq<Probe>, depth: nat,
                                            last: Index, from: nat, r: Round, n: nat)
    requires depth >= 1 && r == RoundAt(scriptAt, tweaks, depth, from)
    requires from <= n < from + |Batches(server, scriptAt, depth, last, r.offset, r.probes)|
    ensures Plans(server, scriptAt, depth, last, r, n - from, RoundAt(scriptAt, tweaks, depth, n))
    decreases n - from
  {
    if from == n {
      FirstIsPlanned(server, scriptAt, depth, last, r);
    } else {
      MoreIsPlanned(server, scriptAt, depth, last, r);
      var next := NextRound(scriptAt, depth, r);
      assert RoundAt(scriptAt, tweaks, depth, from + 1) == next;
      RoundsAreBatches(server, scriptAt, tweaks, depth, last, from + 1, next, n);
      NextIsPlanned(server, scriptAt, depth, last, r, n - (from + 1), RoundAt(scriptAt, tweaks, depth, n));
    }
  }

  lemma ShallowNeverBreaks(server: Server, scriptAt: ScriptAt, tweaks: seq<Probe>, last: Index, round: nat)
    ensures Leaves(server, scriptAt, tweaks, 0, last, round) <==> !server.answers(round)
  {
    RoundsAdvance(scriptAt, tweaks, 0, round);
  }

  /** For a positive depth a round of a planned batch is left exactly when it is not
      answered or the batch is the last one. */
  lemma LeavesExactly(server: Server, scriptAt: ScriptAt, tweaks: seq<Probe>, depth: nat, last: Index, round: nat)
    requires depth >= 1 && round < |Batches(server, scriptAt, depth, last, 0, tweaks)|
    ensures Leaves(server, scriptAt, tweaks, depth, last, round) <==>
            !server.answers(round) || round == |Batches(server, scriptAt, depth, last, 0, tweaks)| - 1
  {
    RoundsAreBatches(server, scriptAt, tweaks, depth, last, 0, Round(0, tweaks), round);
  }

  /** The loop ends exactly when the depth is positive or some round is not answered. */
  lemma EndsExactly(server: Server, scriptAt: ScriptAt, tweaks: seq<Probe>, depth: nat, last: Index)
    ensures (exists round: nat :: Leaves(server, scriptAt, tweaks, depth, last, round)) <==>
            depth >= 1 || exists round: nat :: !server.answers(round)
  {
    if depth >= 1 {
      var round := |Batches(server, scriptAt, depth, last, 0, tweaks)| - 1;
      BatchesFrom(server, scriptAt, depth, last, Round(0, tweaks));
      LeavesExactly(server, scriptAt, tweaks, depth, last, round);
    } else if round: nat :| !server.answers(round) {
      ShallowNeverBreaks(server, scriptAt, tweaks, last, round);
    } else {
      forall round: nat
        ensures !Leaves(server, scriptAt, tweaks, depth, last, round)
      {
        ShallowNeverBreaks(server, scriptAt, tweaks, last, round);
      }
    }
  }
}
