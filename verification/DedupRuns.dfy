/** Runs of the shared ledger in which attempts of one job overlap, and what comes of it. */
module DedupRuns {

  import opened JobTable
  import opened ContentDedup
  import opened DedupProtocol
  import opened DedupExactly

  ghost predicate EndsIn(work: map<JobId, set<Hash>>, states: seq<State>, steps: seq<Step>, s: State) {
    IsRun(work, states, steps) && s == states[|steps|] && s.sent.Keys == work.Keys
  }

  lemma Take(work: map<JobId, set<Hash>>, states: seq<State>, steps: seq<Step>, s: State, step: Step)
      returns (more: seq<State>, taken: seq<Step>, t: State)
    requires EndsIn(work, states, steps, s) && Enabled(s, step)
    ensures t == Apply(work, s, step) && EndsIn(work, more, taken, t)
  {
    t := Apply(work, s, step);
    more, taken := states + [t], steps + [step];
    forall i | 0 <= i < |taken|
      ensures Follows(work, more, taken, i)
    {
      assert i < |steps| ==> Follows(work, states, steps, i);
    }
  }

  predicate NoneClaiming(s: State) {
    forall c | c in s.live :: s.live[c].inserted == {}
  }

  /** An attempt that has claimed everything at once. */
  function Claimer(ledger: Ledger, hashes: set<Hash>, j: JobId): Attempt {
    Attempt(j, Sending, {}, {}, Owned(Claimed(ledger, hashes, j), hashes, j), {})
  }

  /** Undisturbed, the chunks of a claim amount to the one set claim. */
  lemma ClaimsInOneGo(
      work: map<JobId, set<Hash>>, states: seq<State>, steps: seq<Step>, s: State, a: AttemptId, j: JobId)
      returns (more: seq<State>, taken: seq<Step>, t: State)
    requires EndsIn(work, states, steps, s) && NoneClaiming(s)
    requires a !in s.live && j in work && j !in s.done
    ensures EndsIn(work, more, taken, t)
    ensures t == s.(ledger := Claimed(s.ledger, work[j], j), latest := s.latest[j := a],
                    live := s.live[a := Claimer(s.ledger, work[j], j)])
  {
    var s1, s2, s3;
    more, taken, s1 := Take(work, states, steps, s, Begins(a, j));
    assert Visible(s1, a, work[j]) == work[j];
    more, taken, s2 := Take(work, more, taken, s1, Inserts(a, work[j]));
    var attempt := s2.live[a];
    assert attempt.todo == {};
    assert Visible(s2, a, attempt.taken) == attempt.taken;
    more, taken, s3 := Take(work, more, taken, s2, Looks(a));
    more, taken, t := Take(work, more, taken, s3, Commits(a));
    assert s3.live[a].won == Owned(s2.ledger, work[j], j);
    assert t.live == s.live[a := Claimer(s.ledger, work[j], j)];
  }

  function Fresh(work: map<JobId, set<Hash>>): State {
    State(map[], map[], map[], map j | j in work :: {}, {})
  }

  /** A second attempt of a job has sent all its records, and then the first one fails and releases them. */
  lemma FirstFailsLate(work: map<JobId, set<Hash>>, j: JobId)
      returns (states: seq<State>, steps: seq<Step>, t: State)
    requires j in work
    ensures EndsIn(work, states, steps, t) && t.ledger == map[] && t.live == map[] && t.done == {}
    ensures t.sent == Fresh(work).sent[j := work[j]]
  {
    var s := Fresh(work);
    states, steps := [s], [];
    states, steps, s := ClaimsInOneGo(work, states, steps, s, 1, j);
    states, steps, s := ClaimsInOneGo(work, states, steps, s, 2, j);
    assert s.live[1].won == work[j] && s.live[2].won == work[j];
    states, steps, s := Take(work, states, steps, s, Succeeds(2));
    assert Visible(s, 1, work[j]) == work[j];
    states, steps, t := Take(work, states, steps, s, Stops(1, true, true));
    assert t.ledger == map[] && t.live == map[] && t.done == {};
    assert s.sent[j] == work[j];
  }

  /** Another job then claims and sends again every record that the two have in common. */
  lemma SentTwice(work: map<JobId, set<Hash>>, j: JobId, k: JobId)
      returns (states: seq<State>, steps: seq<Step>, t: State)
    requires j in work && k in work && j != k
    ensures EndsIn(work, states, steps, t) && t.sent[j] == work[j] && t.sent[k] == work[k]
    ensures work[j] * work[k] != {} ==> !NeverExposes(states, steps)
  {
    var s;
    states, steps, s := FirstFailsLate(work, j);
    states, steps, s := ClaimsInOneGo(work, states, steps, s, 3, k);
    assert s.live[3].won == work[k];
    states, steps, t := Take(work, states, steps, s, Succeeds(3));
    if NeverExposes(states, steps) && work[j] * work[k] != {} {
      var h :| h in work[j] * work[k];
      SentByOneJob(work, states, steps, |steps|, j, k, h);
    }
  }

  /** One job has claimed its records, and another has dropped those they share and is done. */
  lemma OtherDropsThem(work: map<JobId, set<Hash>>, j: JobId, k: JobId)
      returns (states: seq<State>, steps: seq<Step>, t: State)
    requires j in work && k in work && j != k
    ensures EndsIn(work, states, steps, t) && t.done == {j}
    ensures t.live == map[1 := Attempt(k, Sending, {}, {}, work[k], {})]
    ensures forall h | h in work[k] :: HeldBy(t, k, h) && forall i | i in work :: h !in t.sent[i]
  {
    var s := Fresh(work);
    states, steps := [s], [];
    states, steps, s := ClaimsInOneGo(work, states, steps, s, 1, k);
    assert s.live[1].won == work[k];
    states, steps, s := ClaimsInOneGo(work, states, steps, s, 2, j);
    states, steps, t := Take(work, states, steps, s, Succeeds(2));
  }

  /**
    The release of an overlapping attempt can also come between the insert of a chunk and the look at what
    the job held already. Then the job is done without the records, another job that dropped them as
    duplicates is done too, and nobody has sent them.
   */
  lemma SentByNobody(work: map<JobId, set<Hash>>, j: JobId, k: JobId)
      returns (states: seq<State>, steps: seq<Step>, t: State)
    requires j in work && k in work && j != k
    ensures EndsIn(work, states, steps, t) && j in t.done && k in t.done
    ensures forall h | h in work[k] :: h !in t.ledger && forall i | i in work :: h !in t.sent[i]
    ensures work.Keys == {j, k} && work[k] != {} ==> !NoneLost(work, t) && !NeverLoses(work, states, steps)
  {
    var s;
    states, steps, s := OtherDropsThem(work, j, k);
    states, steps, s := Take(work, states, steps, s, Begins(3, k));
    assert Visible(s, 3, work[k]) == work[k];
    assert forall h | h in work[k] :: HeldBy(s, k, h);
    states, steps, s := Take(work, states, steps, s, Inserts(3, work[k]));
    assert s.live[3] == Attempt(k, Claiming, {}, work[k], {}, {});
    states, steps, t := LosesThem(work, states, steps, s, k);
    if work.Keys == {j, k} && work[k] != {} {
      var h :| h in work[k];
      assert h !in t.ledger && !Owed(work, t, h);
      WhenNothingIsLost(work, states, steps);
      assert t in states;
    }
  }

  lemma LosesThem(work: map<JobId, set<Hash>>, before: seq<State>, taken: seq<Step>, was: State, k: JobId)
      returns (states: seq<State>, steps: seq<Step>, t: State)
    requires k in work && EndsIn(work, before, taken, was)
    requires was.live == map[1 := Attempt(k, Sending, {}, {}, work[k], {}),
                             3 := Attempt(k, Claiming, {}, work[k], {}, {})]
    ensures EndsIn(work, states, steps, t)
    ensures t.sent == was.sent && t.done == was.done + {k}
    ensures forall h | h in work[k] && HeldBy(was, k, h) :: h !in t.ledger
  {
    var s;
    assert Visible(was, 1, work[k]) == work[k];
    states, steps, s := Take(work, before, taken, was, Stops(1, true, true));
    states, steps, s := Take(work, states, steps, s, Looks(3));
    assert s.live[3] == Attempt(k, Claiming, {}, {}, {}, {});
    states, steps, s := Take(work, states, steps, s, Commits(3));
    assert s.live[3].won == {} && s.sent == was.sent;
    states, steps, t := Take(work, states, steps, s, Succeeds(3));
    assert was.sent[k] + {} == was.sent[k];
    assert t.sent == was.sent && t.done == was.done + {k};
  }

  /**
    A first attempt of `j` has begun; since then `k` has claimed, and a second attempt of `j` has dropped
    what they share.
   */
  lemma SecondDropsThem(work: map<JobId, set<Hash>>, j: JobId, k: JobId)
      returns (states: seq<State>, steps: seq<Step>, t: State)
    requires j in work && k in work && j != k
    ensures EndsIn(work, states, steps, t) && t.done == {j} && t.ledger.Keys == work[j] + work[k]
    ensures t.live == map[1 := Attempt(j, Claiming, work[j], {}, {}, {}), 2 := Attempt(k, Sending, {}, {}, work[k], {})]
    ensures t.sent == Fresh(work).sent[j := work[j] - work[k]]
    ensures forall h | h in work[j] + work[k] :: t.ledger[h] == if h in work[k] then k else j
  {
    var s := Fresh(work);
    states, steps := [s], [];
    states, steps, s := Take(work, states, steps, s, Begins(1, j));
    states, steps, s := ClaimsInOneGo(work, states, steps, s, 2, k);
    assert s.live[2].won == work[k];
    states, steps, s := ClaimsInOneGo(work, states, steps, s, 3, j);
    assert s.live[3].won == work[j] - work[k];
    states, steps, t := Take(work, states, steps, s, Succeeds(3));
    assert {} + (work[j] - work[k]) == work[j] - work[k];
  }

  lemma FirstTakesThem(work: map<JobId, set<Hash>>, j: JobId, k: JobId)
      returns (states: seq<State>, steps: seq<Step>, t: State)
    requires j in work && k in work && j != k
    ensures EndsIn(work, states, steps, t) && t.done == {j} && t.live == map[]
    ensures t.ledger.Keys == work[j] && forall h | h in work[j] :: HeldBy(t, j, h)
    ensures t.sent == Fresh(work).sent[j := work[j] - work[k]]
  {
    var s;
    states, steps, s := SecondDropsThem(work, j, k);
    assert Visible(s, 2, work[k]) == work[k];
    states, steps, s := Take(work, states, steps, s, Stops(2, true, true));
    assert s.ledger.Keys == work[j] - work[k] && s.done == {j};
    assert Visible(s, 1, work[j]) == work[j];
    states, steps, s := Take(work, states, steps, s, Inserts(1, work[j]));
    assert s.ledger.Keys == work[j] && s.live.Keys == {1};
    states, steps, t := StrandsThem(work, states, steps, s, j);
  }

  /**
    An attempt that goes on after its job is done can also take a record that another job has just
    released, and then die: its job owns the record, is done and has not sent it, and the other drops it.
   */
  lemma OwnedAndUnsent(work: map<JobId, set<Hash>>, j: JobId, k: JobId)
      returns (states: seq<State>, steps: seq<Step>, t: State)
    requires j in work && k in work && j != k
    ensures EndsIn(work, states, steps, t) && j in t.done && k in t.done
    ensures forall h | h in work[j] * work[k] :: HeldBy(t, j, h) && forall i | i in work :: h !in t.sent[i]
    ensures work[j] * work[k] != {} ==> !AllSent(t) && !NeverStrands(states, steps)
  {
    var s;
    states, steps, s := FirstTakesThem(work, j, k);
    states, steps, s := ClaimsInOneGo(work, states, steps, s, 4, k);
    assert s.live[4].won == work[k] - work[j];
    states, steps, t := Take(work, states, steps, s, Succeeds(4));
    if work[j] * work[k] != {} {
      var h :| h in work[j] * work[k];
      assert HeldBy(t, j, h) && h !in t.sent[j];
      WhenOwnersHaveSent(work, states, steps);
      assert t in states;
    }
  }

  lemma StrandsThem(work: map<JobId, set<Hash>>, before: seq<State>, taken: seq<Step>, was: State, j: JobId)
      returns (states: seq<State>, steps: seq<Step>, t: State)
    requires EndsIn(work, before, taken, was) && was.live.Keys == {1}
    requires was.live[1].job == j && was.live[1].phase.Claiming? && was.live[1].todo == {} && j in work
    ensures EndsIn(work, states, steps, t) && t == was.(live := map[])
  {
    var s;
    states, steps, s := Take(work, before, taken, was, Looks(1));
    states, steps, s := Take(work, states, steps, s, Commits(1));
    states, steps, t := Take(work, states, steps, s, Stops(1, false, false));
    assert t.live == map[] && t.ledger == was.ledger;
  }
}
