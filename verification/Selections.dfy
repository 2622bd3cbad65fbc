/** Exhaustive search over subsets of workers, smallest subsets first. */
module Selections {
  import opened Collections
  import opened Domain
  import opened Ordering

  /** The workers whose ids are in the set, in list order. */
  function Pick(ws: seq<Worker>, ids: set<WorkerId>): seq<Worker> {
    if ws == [] then []
    else if ws[0].id in ids then [ws[0]] + Pick(ws[1..], ids)
    else Pick(ws[1..], ids)
  }

  function IdNotIn(ids: set<WorkerId>): Worker -> bool {
    (w: Worker) => w.id !in ids
  }

  /** The workers whose ids are not in the set. */
  function Drop(ws: seq<Worker>, ids: set<WorkerId>): seq<Worker> {
    Filter(ws, IdNotIn(ids))
  }

  lemma TailIds(ws: seq<Worker>)
    requires DistinctIds(ws) && ws != []
    ensures DistinctIds(ws[1..]) && ws[0].id !in Ids(ws[1..])
    ensures Ids(ws) == {ws[0].id} + Ids(ws[1..])
  {
    forall i, j | 0 <= i < j < |ws[1..]| ensures ws[1..][i].id != ws[1..][j].id {
      assert ws[i + 1].id != ws[j + 1].id;
    }
    assert ws == [ws[0]] + ws[1..];
    forall w | w in ws[1..] ensures w.id != ws[0].id {
      var k :| 0 <= k < |ws[1..]| && ws[1..][k] == w;
      assert ws[k + 1] == w && ws[0].id != ws[k + 1].id;
    }
  }

  lemma {:induction false} PickMembers(ws: seq<Worker>, ids: set<WorkerId>)
    ensures forall w :: w in Pick(ws, ids) <==> w in ws && w.id in ids
  {
    if ws != [] {
      PickMembers(ws[1..], ids);
      assert ws == [ws[0]] + ws[1..];
    }
  }

  /** Ids drawn from a list, split at the head of the list. */
  lemma RestOfIds(ws: seq<Worker>, ids: set<WorkerId>)
    requires DistinctIds(ws) && ws != [] && ids <= Ids(ws)
    ensures var rest := ids - {ws[0].id};
            && DistinctIds(ws[1..]) && rest <= Ids(ws[1..])
            && (forall w :: w in ws[1..] ==> (w.id in ids <==> w.id in rest))
            && (ws[0].id in ids ==> ids == {ws[0].id} + rest && |ids| == |rest| + 1)
            && (ws[0].id !in ids ==> ids == rest)
  {
    TailIds(ws);
  }

  lemma {:induction false} PickHasItsIds(ws: seq<Worker>, ids: set<WorkerId>)
    requires DistinctIds(ws) && ids <= Ids(ws)
    ensures Ids(Pick(ws, ids)) == ids && |Pick(ws, ids)| == |ids|
    decreases |ws|
  {
    if ws == [] {
      assert ids == {};
    } else {
      var rest := ids - {ws[0].id};
      RestOfIds(ws, ids);
      PickHasItsIds(ws[1..], rest);
      PickIgnoresOutsiders(ws[1..], ids, rest);
      if ws[0].id in ids {
        IdsOfCons(ws[0], Pick(ws[1..], rest));
      }
    }
  }

  lemma PrefixedMember<T>(x: T, combinations: seq<seq<T>>, c: seq<T>)
    requires c in combinations
    ensures [x] + c in PrefixAll(x, combinations)
  {
    var k :| 0 <= k < |combinations| && combinations[k] == c;
    assert PrefixAll(x, combinations)[k] == [x] + c;
  }

  lemma CombinationsOfTail<T>(xs: seq<T>, count: nat, c: seq<T>)
    requires xs != [] && count > 0
    ensures c in Combinations(xs[1..], count - 1) ==> [xs[0]] + c in Combinations(xs, count)
    ensures c in Combinations(xs[1..], count) ==> c in Combinations(xs, count)
  {
    if c in Combinations(xs[1..], count - 1) {
      PrefixedMember(xs[0], Combinations(xs[1..], count - 1), c);
    }
  }

  /** A set of ids drawn from distinct workers is one of the combinations of its size. */
  lemma {:induction false} PickIsACombination(ws: seq<Worker>, ids: set<WorkerId>, count: nat)
    requires DistinctIds(ws) && ids <= Ids(ws) && |ids| == count
    ensures Pick(ws, ids) in Combinations(ws, count)
    decreases |ws|
  {
    if count == 0 {
      PickNone(ws);
    } else {
      var rest := ids - {ws[0].id};
      RestOfIds(ws, ids);
      PickIsACombination(ws[1..], rest, |rest|);
      PickIgnoresOutsiders(ws[1..], ids, rest);
      CombinationsOfTail(ws, count, Pick(ws[1..], rest));
    }
  }

  lemma IdsOfCons(w: Worker, ws: seq<Worker>)
    ensures Ids([w] + ws) == {w.id} + Ids(ws)
  {
  }

  lemma {:induction false} PickIgnoresOutsiders(ws: seq<Worker>, ids: set<WorkerId>, fewer: set<WorkerId>)
    requires forall w :: w in ws ==> (w.id in ids <==> w.id in fewer)
    ensures Pick(ws, ids) == Pick(ws, fewer)
  {
    if ws != [] {
      PickIgnoresOutsiders(ws[1..], ids, fewer);
    }
  }

  /** A combination of distinct workers is the list of workers with its ids. */
  lemma {:induction false} CombinationIsAPick(ws: seq<Worker>, count: nat, selected: seq<Worker>)
    requires DistinctIds(ws) && selected in Combinations(ws, count)
    ensures |selected| == count == |Ids(selected)|
    ensures Ids(selected) <= Ids(ws) && Pick(ws, Ids(selected)) == selected
    decreases |ws|
  {
    if count == 0 {
      assert selected == [];
      assert Ids(selected) == {};
      PickNone(ws);
    } else if ws != [] {
      TailIds(ws);
      var shorter := Combinations(ws[1..], count - 1);
      if selected in PrefixAll(ws[0], shorter) {
        var k :| 0 <= k < |shorter| && PrefixAll(ws[0], shorter)[k] == selected;
        assert shorter[k] in shorter;
        CombinationIsAPick(ws[1..], count - 1, shorter[k]);
        PickOfCons(ws, shorter[k]);
      } else {
        assert selected in Combinations(ws[1..], count);
        CombinationIsAPick(ws[1..], count, selected);
      }
    }
  }

  lemma {:induction false} PickOfCons(ws: seq<Worker>, rest: seq<Worker>)
    requires DistinctIds(ws) && ws != []
    requires Ids(rest) <= Ids(ws[1..]) && Pick(ws[1..], Ids(rest)) == rest && |rest| == |Ids(rest)|
    ensures var selected := [ws[0]] + rest;
            Ids(selected) <= Ids(ws) && |Ids(selected)| == |selected| && Pick(ws, Ids(selected)) == selected
  {
    TailIds(ws);
    IdsOfCons(ws[0], rest);
    PickIgnoresOutsiders(ws[1..], Ids([ws[0]] + rest), Ids(rest));
  }

  lemma {:induction false} PickNone(ws: seq<Worker>)
    ensures Pick(ws, {}) == []
  {
    if ws != [] {
      PickNone(ws[1..]);
    }
  }

  /** Picking from a filtered list or from the whole list is the same, for ids of kept workers. */
  lemma {:induction false} PickFromFiltered(ws: seq<Worker>, keep: Worker -> bool, ids: set<WorkerId>)
    requires DistinctIds(ws) && ids <= Ids(Filter(ws, keep))
    ensures Pick(Filter(ws, keep), ids) == Pick(ws, ids)
    ensures DistinctIds(Filter(ws, keep)) && Ids(Filter(ws, keep)) <= Ids(ws)
    decreases |ws|
  {
    FilteredIds(ws, keep);
    if ws != [] {
      TailIds(ws);
      FilteredIds(ws[1..], keep);
      var head, kept := ws[0], Filter(ws[1..], keep);
      if keep(head) {
        assert Filter(ws, keep) == [head] + kept;
        IdsOfCons(head, kept);
        var rest := ids - {head.id};
        PickFromFiltered(ws[1..], keep, rest);
        PickIgnoresOutsiders(kept, ids, rest);
        PickIgnoresOutsiders(ws[1..], ids, rest);
      } else {
        PickFromFiltered(ws[1..], keep, ids);
      }
    }
  }

  lemma {:induction false} FilteredIds(ws: seq<Worker>, keep: Worker -> bool)
    requires DistinctIds(ws)
    ensures DistinctIds(Filter(ws, keep)) && Ids(Filter(ws, keep)) <= Ids(ws)
    decreases |ws|
  {
    if ws != [] {
      TailIds(ws);
      FilteredIds(ws[1..], keep);
      var kept := Filter(ws[1..], keep);
      forall i, j | 0 <= i < j < |[ws[0]] + kept|
        ensures ([ws[0]] + kept)[i].id != ([ws[0]] + kept)[j].id
      {
        if i == 0 {
          assert kept[j - 1].id in Ids(kept);
        } else {
          assert kept[i - 1].id != kept[j - 1].id;
        }
      }
    }
  }

  /** A non-empty choice among the candidates that passes the test. */
  ghost predicate Passes(candidates: seq<Worker>, test: set<WorkerId> -> bool, ids: set<WorkerId>) {
    ids != {} && ids <= Ids(candidates) && test(ids)
  }

  /** Some found selection is smaller than this choice, or is this choice. */
  ghost predicate Covered(found: seq<seq<Worker>>, candidates: seq<Worker>, ids: set<WorkerId>) {
    exists k :: 0 <= k < |found| && (|found[k]| < |ids| || found[k] == Pick(candidates, ids))
  }

  /** A list of candidates, in their order, that passes the test. */
  ghost predicate Selection(ws: seq<Worker>, candidates: seq<Worker>, test: set<WorkerId> -> bool) {
    Passes(candidates, test, Ids(ws)) && ws == Pick(candidates, Ids(ws)) && |ws| == |Ids(ws)|
  }

  ghost predicate Sound(found: seq<seq<Worker>>, candidates: seq<Worker>, test: set<WorkerId> -> bool) {
    forall ws :: ws in found ==> Selection(ws, candidates, test)
  }

  lemma {:induction false} CombinationIsASelection(candidates: seq<Worker>, test: set<WorkerId> -> bool, count: nat,
                                selected: seq<Worker>)
    requires DistinctIds(candidates) && count > 0 && selected in Combinations(candidates, count)
    requires test(Ids(selected))
    ensures Selection(selected, candidates, test) && |selected| == count
  {
    CombinationIsAPick(candidates, count, selected);
    assert Ids(selected) != {};
  }

  /** The selections of the given size that pass the test, in the library's order. */
  method SelectionsOfSize(candidates: seq<Worker>, test: set<WorkerId> -> bool, count: nat)
    returns (found: seq<seq<Worker>>)
    requires DistinctIds(candidates) && count > 0
    ensures Sound(found, candidates, test)
    ensures forall ws :: ws in found ==> |ws| == count
    ensures forall ids :: Passes(candidates, test, ids) && |ids| == count ==> Pick(candidates, ids) in found
  {
    found := [];
    var combinations := Combinations(candidates, count);
    for c := 0 to |combinations|
      invariant forall ws :: ws in found ==> ws in combinations && test(Ids(ws))
      invariant forall j :: 0 <= j < c && test(Ids(combinations[j])) ==> combinations[j] in found
    {
      if test(Ids(combinations[c])) {
        found := found + [combinations[c]];
      }
    }
    forall ws | ws in found ensures Selection(ws, candidates, test) && |ws| == count {
      CombinationIsASelection(candidates, test, count, ws);
    }
    forall ids | Passes(candidates, test, ids) && |ids| == count ensures Pick(candidates, ids) in found {
      var j := PositionOfPick(candidates, ids);
    }
  }

  lemma PositionOfPick(candidates: seq<Worker>, ids: set<WorkerId>) returns (j: nat)
    requires DistinctIds(candidates) && ids <= Ids(candidates)
    ensures j < |Combinations(candidates, |ids|)|
    ensures Combinations(candidates, |ids|)[j] == Pick(candidates, ids)
    ensures Ids(Pick(candidates, ids)) == ids
  {
    PickIsACombination(candidates, ids, |ids|);
    PickHasItsIds(candidates, ids);
    j :| 0 <= j < |Combinations(candidates, |ids|)|
         && Combinations(candidates, |ids|)[j] == Pick(candidates, ids);
  }

  /**
   * The search both planner choices share: sizes are tried in turn and the search stops at the
   * first size with a passing selection. Stopping early loses nothing smaller or of equal size.
   */
  method SmallestSelections(candidates: seq<Worker>, test: set<WorkerId> -> bool)
    returns (found: seq<seq<Worker>>)
    requires DistinctIds(candidates)
    ensures Sound(found, candidates, test)
    ensures forall ids :: Passes(candidates, test, ids) ==> Covered(found, candidates, ids)
  {
    found := [];
    var count := 1;
    while count <= |candidates| && found == []
      invariant 1 <= count <= |candidates| + 1
      invariant Sound(found, candidates, test)
      invariant found == [] ==> forall ids :: Passes(candidates, test, ids) ==> |ids| >= count
      invariant found != [] ==> forall ids :: Passes(candidates, test, ids) ==> Covered(found, candidates, ids)
      decreases |candidates| + 1 - count, found == []
    {
      found := SelectionsOfSize(candidates, test, count);
      if found != [] {
        forall ids | Passes(candidates, test, ids) ensures Covered(found, candidates, ids) {
          if |ids| == count {
            var k :| 0 <= k < |found| && found[k] == Pick(candidates, ids);
          } else {
            assert found[0] in found;
            assert |found[0]| < |ids|;
          }
        }
      } else {
        count := count + 1;
      }
    }
    forall ids | found == [] && Passes(candidates, test, ids) ensures false {
      PickHasItsIds(candidates, ids);
      PickIsShorter(candidates, ids);
    }
  }

  lemma {:induction false} PickIsShorter(ws: seq<Worker>, ids: set<WorkerId>)
    ensures |Pick(ws, ids)| <= |ws|
  {
    if ws != [] {
      PickIsShorter(ws[1..], ids);
    }
  }

  // ---------- the best selection over several placements ----------

  function KeepFor<P>(keep: (P, Worker) -> bool, p: P): Worker -> bool {
    (w: Worker) => keep(p, w)
  }

  function TestFor<P>(test: (P, set<WorkerId>) -> bool, p: P): set<WorkerId> -> bool {
    (ids: set<WorkerId>) => test(p, ids)
  }

  /** Choosing exactly these workers, all allowed for placement `p`, passes its test. */
  ghost predicate Enables<P>(ws: seq<Worker>, keep: (P, Worker) -> bool,
                             test: (P, set<WorkerId>) -> bool, p: P, ids: set<WorkerId>) {
    Passes(Filter(ws, KeepFor(keep, p)), TestFor(test, p), ids)
  }

  /** A total order on selections in which fewer workers always come first. */
  ghost predicate FewerFirst(better: (seq<Worker>, seq<Worker>) -> bool) {
    && (forall a, b :: better(a, b) || better(b, a))
    && (forall a, b, c :: better(a, b) && better(b, c) ==> better(a, c))
    && (forall a, b :: |a| < |b| ==> better(a, b))
  }

  ghost predicate HasBetter(options: seq<seq<Worker>>, better: (seq<Worker>, seq<Worker>) -> bool,
                            selection: seq<Worker>) {
    exists k :: 0 <= k < |options| && better(options[k], selection)
  }

  /** Every passing choice for the placement is matched by some option. */
  ghost predicate CoversPlacement<P>(ws: seq<Worker>, keep: (P, Worker) -> bool,
                                     test: (P, set<WorkerId>) -> bool,
                                     better: (seq<Worker>, seq<Worker>) -> bool,
                                     p: P, options: seq<seq<Worker>>) {
    forall ids :: Enables(ws, keep, test, p, ids) ==> HasBetter(options, better, Pick(ws, ids))
  }

  ghost predicate IsOption<P>(ws: seq<Worker>, keep: (P, Worker) -> bool,
                              test: (P, set<WorkerId>) -> bool, ps: seq<P>, option: seq<Worker>) {
    option == Pick(ws, Ids(option)) && exists p :: p in ps && Enables(ws, keep, test, p, Ids(option))
  }

  /** Nothing is chosen only when nothing passes; otherwise the choice passes and none is better. */
  ghost predicate Optimal<P>(ws: seq<Worker>, ps: seq<P>, keep: (P, Worker) -> bool,
                             test: (P, set<WorkerId>) -> bool,
                             better: (seq<Worker>, seq<Worker>) -> bool,
                             choice: Option<seq<Worker>>) {
    && (choice.None? <==> forall p, ids :: p in ps ==> !Enables(ws, keep, test, p, ids))
    && (choice.Some? ==>
          && IsOption(ws, keep, test, ps, choice.value)
          && forall p, ids :: p in ps && Enables(ws, keep, test, p, ids) ==>
               better(choice.value, Pick(ws, ids)))
  }

  /** The options of the first `c` placements. */
  ghost predicate Gathered<P>(ws: seq<Worker>, keep: (P, Worker) -> bool,
                              test: (P, set<WorkerId>) -> bool,
                              better: (seq<Worker>, seq<Worker>) -> bool,
                              ps: seq<P>, c: nat, options: seq<seq<Worker>>)
    requires c <= |ps|
  {
    && (forall k :: 0 <= k < |options| ==> IsOption(ws, keep, test, ps, options[k]))
    && (forall j :: 0 <= j < c ==> CoversPlacement(ws, keep, test, better, ps[j], options))
  }

  lemma BothHold<T>(a: seq<T>, b: seq<T>, p: T -> bool)
    requires (forall k :: 0 <= k < |a| ==> p(a[k])) && (forall k :: 0 <= k < |b| ==> p(b[k]))
    ensures forall k :: 0 <= k < |a + b| ==> p((a + b)[k])
  {
  }

  lemma MoreOptionsHaveBetter(options: seq<seq<Worker>>, more: seq<seq<Worker>>,
                              better: (seq<Worker>, seq<Worker>) -> bool, selection: seq<Worker>)
    requires HasBetter(options, better, selection) || HasBetter(more, better, selection)
    ensures HasBetter(options + more, better, selection)
  {
    if HasBetter(options, better, selection) {
      var k :| 0 <= k < |options| && better(options[k], selection);
      assert (options + more)[k] == options[k];
    } else {
      var k :| 0 <= k < |more| && better(more[k], selection);
      assert (options + more)[|options| + k] == more[k];
    }
  }

  lemma GatherOneMore<P>(ws: seq<Worker>, keep: (P, Worker) -> bool,
                         test: (P, set<WorkerId>) -> bool,
                         better: (seq<Worker>, seq<Worker>) -> bool,
                         ps: seq<P>, c: nat, options: seq<seq<Worker>>, here: seq<seq<Worker>>)
    requires c < |ps| && Gathered(ws, keep, test, better, ps, c, options)
    requires forall k :: 0 <= k < |here| ==> IsOption(ws, keep, test, ps, here[k])
    requires CoversPlacement(ws, keep, test, better, ps[c], here)
    ensures Gathered(ws, keep, test, better, ps, c + 1, options + here)
  {
    BothHold(options, here, (o: seq<Worker>) => IsOption(ws, keep, test, ps, o));
    forall j | 0 <= j <= c
      ensures CoversPlacement(ws, keep, test, better, ps[j], options + here)
    {
      forall ids | Enables(ws, keep, test, ps[j], ids)
        ensures HasBetter(options + here, better, Pick(ws, ids))
      {
        MoreOptionsHaveBetter(options, here, better, Pick(ws, ids));
      }
    }
  }

  /** The options one placement contributes: its smallest passing selections. */
  method OptionsFor<P>(ws: seq<Worker>, keep: (P, Worker) -> bool,
                       test: (P, set<WorkerId>) -> bool,
                       ghost better: (seq<Worker>, seq<Worker>) -> bool, ghost ps: seq<P>, p: P)
    returns (options: seq<seq<Worker>>)
    requires DistinctIds(ws) && FewerFirst(better) && p in ps
    ensures forall k :: 0 <= k < |options| ==> IsOption(ws, keep, test, ps, options[k])
    ensures CoversPlacement(ws, keep, test, better, p, options)
  {
    var candidates := Filter(ws, KeepFor(keep, p));
    FilteredIds(ws, KeepFor(keep, p));
    options := SmallestSelections(candidates, TestFor(test, p));
    forall k | 0 <= k < |options| ensures IsOption(ws, keep, test, ps, options[k]) {
      assert Selection(options[k], candidates, TestFor(test, p));
      PickFromFiltered(ws, KeepFor(keep, p), Ids(options[k]));
      assert Enables(ws, keep, test, p, Ids(options[k]));
    }
    forall ids | Enables(ws, keep, test, p, ids) ensures HasBetter(options, better, Pick(ws, ids)) {
      PickFromFiltered(ws, KeepFor(keep, p), ids);
      PickHasItsIds(candidates, ids);
      CoveredHasBetter(options, candidates, better, ids);
    }
  }

  lemma {:induction false} CoveredHasBetter(options: seq<seq<Worker>>, candidates: seq<Worker>,
                         better: (seq<Worker>, seq<Worker>) -> bool, ids: set<WorkerId>)
    requires FewerFirst(better) && Covered(options, candidates, ids)
    requires |Pick(candidates, ids)| == |ids|
    ensures HasBetter(options, better, Pick(candidates, ids))
  {
    var k :| 0 <= k < |options| && (|options[k]| < |ids| || options[k] == Pick(candidates, ids));
    assert better(options[k], Pick(candidates, ids));
  }

  /** The first least option of a list. */
  method LeastOption(options: seq<seq<Worker>>, better: (seq<Worker>, seq<Worker>) -> bool)
    returns (best: nat)
    requires options != [] && FewerFirst(better)
    ensures best < |options|
    ensures forall k :: 0 <= k < |options| ==> better(options[best], options[k])
  {
    best := 0;
    for k := 1 to |options|
      invariant best < k
      invariant forall j :: 0 <= j < k ==> better(options[best], options[j])
    {
      if !better(options[best], options[k]) {
        best := k;
      }
    }
  }

  lemma LeastBeatsAll(options: seq<seq<Worker>>, best: nat,
                      better: (seq<Worker>, seq<Worker>) -> bool, selection: seq<Worker>)
    requires FewerFirst(better) && best < |options| && HasBetter(options, better, selection)
    requires forall k :: 0 <= k < |options| ==> better(options[best], options[k])
    ensures better(options[best], selection)
  {
    var k :| 0 <= k < |options| && better(options[k], selection);
    assert better(options[best], options[k]);
  }

  lemma LeastOptionIsOptimal<P>(ws: seq<Worker>, ps: seq<P>, keep: (P, Worker) -> bool,
                                test: (P, set<WorkerId>) -> bool,
                                better: (seq<Worker>, seq<Worker>) -> bool,
                                options: seq<seq<Worker>>, best: nat)
    requires FewerFirst(better) && best < |options|
    requires Gathered(ws, keep, test, better, ps, |ps|, options)
    requires forall k :: 0 <= k < |options| ==> better(options[best], options[k])
    ensures Optimal(ws, ps, keep, test, better, Some(options[best]))
  {
    assert IsOption(ws, keep, test, ps, options[best]);
    forall p, ids | p in ps && Enables(ws, keep, test, p, ids)
      ensures better(options[best], Pick(ws, ids))
    {
      var j :| 0 <= j < |ps| && ps[j] == p;
      assert CoversPlacement(ws, keep, test, better, ps[j], options);
      LeastBeatsAll(options, best, better, Pick(ws, ids));
    }
  }

  /** The planner's exhaustive choice: the best of the smallest selections of all placements. */
  method BestSelection<P>(ws: seq<Worker>, ps: seq<P>, keep: (P, Worker) -> bool,
                          test: (P, set<WorkerId>) -> bool,
                          better: (seq<Worker>, seq<Worker>) -> bool)
    returns (choice: Option<seq<Worker>>)
    requires DistinctIds(ws) && FewerFirst(better)
    ensures Optimal(ws, ps, keep, test, better, choice)
  {
    var options := [];
    for c := 0 to |ps|
      invariant Gathered(ws, keep, test, better, ps, c, options)
    {
      var here := OptionsFor(ws, keep, test, better, ps, ps[c]);
      GatherOneMore(ws, keep, test, better, ps, c, options, here);
      options := options + here;
    }
    if options == [] {
      forall p, ids | p in ps ensures !Enables(ws, keep, test, p, ids) {
        assert !HasBetter([], better, Pick(ws, ids));
      }
      return None;
    }
    var best := LeastOption(options, better);
    LeastOptionIsOptimal(ws, ps, keep, test, better, options, best);
    choice := Some(options[best]);
  }
}
