/** The batch of a delivery cycle: the first hundred candidates of the whole queue, each once. */
module OutboxQueue {
  import opened Incidents
  import opened Sequences
  import opened Sorting
  import opened Outbox

  /** In order, and therefore without repetition. */
  ghost predicate InOrder(saved: Saved, rows: Rows, s: seq<nat>) {
    forall i, j :: 0 <= i < j < |s| ==> Ahead(saved, rows, s[i], s[j])
  }

  lemma AheadIsAnOrder(saved: Saved, rows: Rows)
    ensures Transitive(AheadIn(saved, rows)) && Irreflexive(AheadIn(saved, rows))
    ensures forall a: nat, b: nat :: a != b ==> AheadIn(saved, rows)(a, b) || AheadIn(saved, rows)(b, a)
  {
  }

  predicate Ascending(ids: seq<nat>) {
    forall i, j :: 0 <= i < j < |ids| ==> ids[i] < ids[j]
  }

  lemma {:induction false} FilteredIdsAscend(n: nat, p: nat -> bool)
    ensures Ascending(Filter(Ids(n), p))
  {
    if n == 0 {
    } else {
      var last: nat := n - 1;
      var front := Filter(Ids(last), p);
      FilteredIdsAscend(last, p);
      assert Ids(n) == Ids(last) + [last];
      FilterLast<nat>(Ids(last), last, p);
      forall i | 0 <= i < |front| ensures front[i] < last {
        assert front[i] in Ids(last);
      }
    }
  }

  /** The statement behind the batch lists exactly the candidates, in order. */
  lemma CandidatesAreListed(saved: Saved, rows: Rows, now: int, r: Rules)
    ensures InOrder(saved, rows, Candidates(saved, rows, now, r))
    ensures forall id: nat :: id in Candidates(saved, rows, now, r) <==> Candidate(saved, rows, id, now, r)
  {
    var selected := Filter(Ids(|saved.log|), CandidateIn(saved, rows, now, r));
    FilteredIdsAscend(|saved.log|, CandidateIn(saved, rows, now, r));
    AheadIsAnOrder(saved, rows);
    SortSorts(selected, AheadIn(saved, rows));
    SortMembers(selected, AheadIn(saved, rows));
    var all := SortBy(selected, AheadIn(saved, rows));
    forall i, j | 0 <= i < j < |all| ensures Ahead(saved, rows, all[i], all[j]) {
      assert AheadIn(saved, rows)(all[i], all[j]);
    }
    forall id: nat | Candidate(saved, rows, id, now, r) ensures id in selected {
      assert Ids(|saved.log|)[id] == id;
    }
  }

  /** Every examined row is a candidate; one that is left out has a full batch ahead of it. */
  lemma BatchIsTheFrontOfTheQueue(saved: Saved, rows: Rows, now: int, r: Rules)
    ensures var batch := Batch(saved, rows, now, r);
      && InOrder(saved, rows, batch) && |batch| <= BATCH
      && (forall i, j :: 0 <= i < j < |batch| ==> batch[i] != batch[j])
      && (forall id :: id in batch ==> Candidate(saved, rows, id, now, r))
      && (forall id: nat :: Candidate(saved, rows, id, now, r) && id !in batch ==>
            |batch| == BATCH && forall b :: b in batch ==> Ahead(saved, rows, b, id))
  {
    var all, batch := Candidates(saved, rows, now, r), Batch(saved, rows, now, r);
    CandidatesAreListed(saved, rows, now, r);
    forall id: nat | Candidate(saved, rows, id, now, r) && id !in batch
      ensures |batch| == BATCH && forall b :: b in batch ==> Ahead(saved, rows, b, id)
    {
      assert id in all;
      var i :| 0 <= i < |all| && all[i] == id;
      assert forall k :: 0 <= k < |batch| ==> batch[k] == all[k];
    }
  }
}
