/**
  Exactly once, however attempts overlap: which steps lose a record, which leave one owned and unsent,
  and that with the steps that expose one these are all that can go wrong.
 */
module DedupExactly {

  import opened JobTable
  import opened ContentDedup
  import opened DedupProtocol

  // ----- records that nobody will send -----

  /** Some job with this hash is not done, and so will claim it again. */
  ghost predicate Owed(work: map<JobId, set<Hash>>, s: State, h: Hash) {
    exists k :: k in work && h in work[k] && k !in s.done
  }

  /** Every hash of a job is owned or owed. */
  ghost predicate NoneLost(work: map<JobId, set<Hash>>, s: State) {
    forall j, h | j in work && h in work[j] :: h in s.ledger || Owed(work, s, h)
  }

  /** Nobody but this job is still to claim the hash. */
  ghost predicate LastWith(work: map<JobId, set<Hash>>, s: State, j: JobId, h: Hash) {
    forall k | k in work && h in work[k] && k != j :: k in s.done
  }

  /**
    A job succeeds while one of its hashes is unowned and every other job with that hash is done; or an
    attempt ends without a report and frees a hash all of whose jobs are done.
   */
  ghost predicate Loses(work: map<JobId, set<Hash>>, s: State, step: Step)
    requires Enabled(s, step) && s.sent.Keys == work.Keys
  {
    || (step.Succeeds?
        && exists h :: h in work[s.live[step.a].job] - s.ledger.Keys && LastWith(work, s, s.live[step.a].job, h))
    || (step.Stops? && !step.reports && exists h :: h in Freed(s, step.a, step.releases) && !Owed(work, s, h))
  }

  lemma SuccessLoses(work: map<JobId, set<Hash>>, s: State, step: Step)
    requires Sane(work, s) && Enabled(s, step) && step.Succeeds? && NoneLost(work, s)
    ensures NoneLost(work, Apply(work, s, step)) <==> !Loses(work, s, step)
  {
    var t, i := Apply(work, s, step), s.live[step.a].job;
    assert AttemptOk(work, s, step.a);
    if Loses(work, s, step) {
      var h :| h in work[i] - s.ledger.Keys && LastWith(work, s, i, h);
      assert h !in t.ledger && !Owed(work, t, h);
    } else {
      forall j, h | j in work && h in work[j]
        ensures h in t.ledger || Owed(work, t, h)
      {
        if h !in s.ledger {
          var k :| k in work && h in work[k] && k !in s.done;
          if k == i {
            assert h in work[i] - s.ledger.Keys && !LastWith(work, s, i, h);
          } else {
            assert k !in t.done;
          }
        }
      }
    }
  }

  lemma StopLoses(work: map<JobId, set<Hash>>, s: State, step: Step)
    requires Sane(work, s) && Enabled(s, step) && step.Stops? && NoneLost(work, s)
    ensures NoneLost(work, Apply(work, s, step)) <==> !Loses(work, s, step)
  {
    var t, i := Apply(work, s, step), s.live[step.a].job;
    assert AttemptOk(work, s, step.a);
    FreedIsOwned(work, s, step.a, step.releases);
    if Loses(work, s, step) {
      var h :| h in Freed(s, step.a, step.releases) && !Owed(work, s, h);
      assert h in work[i] && h !in t.ledger && !Owed(work, t, h);
    } else {
      forall j, h | j in work && h in work[j]
        ensures h in t.ledger || Owed(work, t, h)
      {
        if step.reports && h in work[i] {
          assert i !in t.done;
        } else if h !in t.ledger {
          var k :| k in work && h in work[k] && k !in s.done;
          assert k !in t.done;
        }
      }
    }
  }

  /** In one step nothing is lost if and only if the step is not one of the two that lose. */
  lemma WhenAStepLoses(work: map<JobId, set<Hash>>, s: State, step: Step)
    requires Sane(work, s) && Enabled(s, step) && NoneLost(work, s)
    ensures NoneLost(work, Apply(work, s, step)) <==> !Loses(work, s, step)
  {
    var t := Apply(work, s, step);
    if step.Succeeds? {
      SuccessLoses(work, s, step);
    } else if step.Stops? {
      StopLoses(work, s, step);
    } else {
      forall j, h | j in work && h in work[j]
        ensures h in t.ledger || Owed(work, t, h)
      {
        if h !in s.ledger {
          var k :| k in work && h in work[k] && k !in s.done;
          assert k !in t.done;
        }
      }
    }
  }

  // ----- records that are owned by a job that is done, and were never sent -----

  /** A job that is done has sent what it owns. */
  ghost predicate AllSent(s: State) {
    forall j, h | j in s.done && j in s.sent && HeldBy(s, j, h) :: h in s.sent[j]
  }

  /**
    An attempt of a job that is done inserts a hash the job has not sent, or a job succeeds while it owns
    a hash that it has not sent and this attempt does not.
   */
  predicate Strands(s: State, step: Step)
    requires Enabled(s, step)
  {
    || (step.Inserts? && s.live[step.a].job in s.done
        && !(step.part - s.ledger.Keys <= s.sent[s.live[step.a].job]))
    || (step.Succeeds?
        && exists h :: h in s.ledger && s.ledger[h] == s.live[step.a].job
                       && h !in s.sent[s.live[step.a].job] + s.live[step.a].won)
  }

  lemma WhenAStepStrands(work: map<JobId, set<Hash>>, s: State, step: Step)
    requires Sane(work, s) && Enabled(s, step) && AllSent(s)
    ensures AllSent(Apply(work, s, step)) <==> !Strands(s, step)
  {
    var t := Apply(work, s, step);
    if Strands(s, step) {
      var i := s.live[step.a].job;
      if step.Inserts? {
        var h :| h in step.part - s.ledger.Keys && h !in s.sent[i];
        assert HeldBy(t, i, h);
      } else {
        var h :| h in s.ledger && s.ledger[h] == i && h !in s.sent[i] + s.live[step.a].won;
        assert HeldBy(t, i, h);
      }
    } else {
      forall j, h | j in t.done && j in t.sent && HeldBy(t, j, h)
        ensures h in t.sent[j]
      {
        if h in s.ledger {
          assert HeldBy(s, j, h);
        } else {
          assert step.Inserts? && h in step.part - s.ledger.Keys;
        }
      }
    }
  }

  // ----- over whole runs -----

  ghost predicate LosesAt(work: map<JobId, set<Hash>>, states: seq<State>, steps: seq<Step>, i: nat)
    requires i < |steps| < |states|
  {
    Enabled(states[i], steps[i]) && states[i].sent.Keys == work.Keys && Loses(work, states[i], steps[i])
  }

  ghost predicate NeverLoses(work: map<JobId, set<Hash>>, states: seq<State>, steps: seq<Step>)
    requires |states| == |steps| + 1
  {
    forall i | 0 <= i < |steps| :: !LosesAt(work, states, steps, i)
  }

  ghost predicate NoneLostThroughout(work: map<JobId, set<Hash>>, states: seq<State>) {
    forall s | s in states :: NoneLost(work, s)
  }

  lemma NothingLostAtFirst(work: map<JobId, set<Hash>>, s: State)
    requires Init(work, s)
    ensures NoneLost(work, s) && AllSent(s)
  {
    forall j, h | j in work && h in work[j]
      ensures Owed(work, s, h)
    {
      assert j !in s.done;
    }
  }

  lemma {:induction false} KeptUnlessLost(
      work: map<JobId, set<Hash>>, states: seq<State>, steps: seq<Step>, i: nat)
    requires IsRun(work, states, steps) && NeverLoses(work, states, steps) && i < |states|
    ensures NoneLost(work, states[i])
  {
    if i > 0 {
      KeptUnlessLost(work, states, steps, i - 1);
      assert Follows(work, states, steps, i - 1) && !LosesAt(work, states, steps, i - 1);
      SaneAlways(work, states, steps, i - 1);
      WhenAStepLoses(work, states[i - 1], steps[i - 1]);
    } else {
      NothingLostAtFirst(work, states[0]);
    }
  }

  /** However attempts overlap, no record is lost at any moment of a run if and only if no step loses one. */
  lemma WhenNothingIsLost(work: map<JobId, set<Hash>>, states: seq<State>, steps: seq<Step>)
    requires IsRun(work, states, steps)
    ensures NoneLostThroughout(work, states) <==> NeverLoses(work, states, steps)
  {
    if NoneLostThroughout(work, states) {
      forall i | 0 <= i < |steps|
        ensures !LosesAt(work, states, steps, i)
      {
        assert Follows(work, states, steps, i) && states[i] in states && states[i + 1] in states;
        SaneAlways(work, states, steps, i);
        WhenAStepLoses(work, states[i], steps[i]);
      }
    }
    if NeverLoses(work, states, steps) {
      forall s | s in states
        ensures NoneLost(work, s)
      {
        var i :| 0 <= i < |states| && states[i] == s;
        KeptUnlessLost(work, states, steps, i);
      }
    }
  }

  ghost predicate StrandsAt(states: seq<State>, steps: seq<Step>, i: nat)
    requires i < |steps| < |states|
  {
    Enabled(states[i], steps[i]) && Strands(states[i], steps[i])
  }

  ghost predicate NeverStrands(states: seq<State>, steps: seq<Step>)
    requires |states| == |steps| + 1
  {
    forall i | 0 <= i < |steps| :: !StrandsAt(states, steps, i)
  }

  ghost predicate AllSentThroughout(states: seq<State>) {
    forall s | s in states :: AllSent(s)
  }

  lemma {:induction false} SentUnlessStranded(
      work: map<JobId, set<Hash>>, states: seq<State>, steps: seq<Step>, i: nat)
    requires IsRun(work, states, steps) && NeverStrands(states, steps) && i < |states|
    ensures AllSent(states[i])
  {
    if i > 0 {
      SentUnlessStranded(work, states, steps, i - 1);
      assert Follows(work, states, steps, i - 1) && !StrandsAt(states, steps, i - 1);
      SaneAlways(work, states, steps, i - 1);
      WhenAStepStrands(work, states[i - 1], steps[i - 1]);
    } else {
      NothingLostAtFirst(work, states[0]);
    }
  }

  /** A job that is done has sent what it owns, at every moment of a run, if and only if no step strands a hash. */
  lemma WhenOwnersHaveSent(work: map<JobId, set<Hash>>, states: seq<State>, steps: seq<Step>)
    requires IsRun(work, states, steps)
    ensures AllSentThroughout(states) <==> NeverStrands(states, steps)
  {
    if AllSentThroughout(states) {
      forall i | 0 <= i < |steps|
        ensures !StrandsAt(states, steps, i)
      {
        assert Follows(work, states, steps, i) && states[i] in states && states[i + 1] in states;
        SaneAlways(work, states, steps, i);
        WhenAStepStrands(work, states[i], steps[i]);
      }
    }
    if NeverStrands(states, steps) {
      forall s | s in states
        ensures AllSent(s)
      {
        var i :| 0 <= i < |states| && states[i] == s;
        SentUnlessStranded(work, states, steps, i);
      }
    }
  }

  // ----- exactly once -----

  /** The hash has one owner: who held it before, and then no job has sent it, or else the one job that has. */
  ghost predicate Once(work: map<JobId, set<Hash>>, before: Ledger, s: State, h: Hash)
    requires s.sent.Keys == work.Keys
  {
    && h in s.ledger
    && if h in before then s.ledger[h] == before[h] && forall k | k in work :: h !in s.sent[k]
       else s.ledger[h] in work && forall k | k in work :: h in s.sent[k] <==> k == s.ledger[h]
  }

  ghost predicate DeliveredOnce(work: map<JobId, set<Hash>>, before: Ledger, s: State)
    requires s.sent.Keys == work.Keys
  {
    forall j, h | j in work && h in work[j] :: Once(work, before, s, h)
  }

  lemma {:induction false} LedgerAlways(work: map<JobId, set<Hash>>, states: seq<State>, steps: seq<Step>, i: nat)
    requires IsRun(work, states, steps) && i < |states|
    ensures LedgerOk(work, states[0].ledger, states[i])
  {
    if i > 0 {
      LedgerAlways(work, states, steps, i - 1);
      SaneAlways(work, states, steps, i - 1);
      assert Follows(work, states, steps, i - 1);
      LedgerKept(work, states[0].ledger, states[i - 1], steps[i - 1]);
    }
  }

  /** A job sends its own hashes only. */
  ghost predicate SendsItsOwn(work: map<JobId, set<Hash>>, s: State) {
    s.sent.Keys == work.Keys && forall j | j in work :: s.sent[j] <= work[j]
  }

  lemma {:induction false} SendsItsOwnAlways(
      work: map<JobId, set<Hash>>, states: seq<State>, steps: seq<Step>, i: nat)
    requires IsRun(work, states, steps) && i < |states|
    ensures SendsItsOwn(work, states[i])
  {
    if i > 0 {
      SendsItsOwnAlways(work, states, steps, i - 1);
      SaneAlways(work, states, steps, i - 1);
      assert Follows(work, states, steps, i - 1);
      if steps[i - 1].Succeeds? {
        assert AttemptOk(work, states[i - 1], steps[i - 1].a);
      }
    }
  }

  lemma OnceFromParts(work: map<JobId, set<Hash>>, before: Ledger, s: State)
    requires Sane(work, s) && LedgerOk(work, before, s) && s.done == work.Keys
    requires forall h | h in before :: before[h] !in work
    requires AllHeld(s) && NoneLost(work, s) && AllSent(s)
    ensures DeliveredOnce(work, before, s)
  {
    forall j, h | j in work && h in work[j]
      ensures Once(work, before, s, h)
    {
      assert !Owed(work, s, h);
      forall k | k in work
        ensures h in s.sent[k] <==> HeldBy(s, k, h)
      {
      }
    }
  }

  lemma PartsFromOnce(work: map<JobId, set<Hash>>, before: Ledger, s: State)
    requires SendsItsOwn(work, s) && LedgerOk(work, before, s) && s.done == work.Keys
    requires DeliveredOnce(work, before, s)
    ensures AllHeld(s) && NoneLost(work, s) && AllSent(s)
  {
    forall j, h | j in s.sent && h in s.sent[j]
      ensures HeldBy(s, j, h)
    {
      assert h in work[j] && Once(work, before, s, h);
    }
    forall j, h | j in s.done && j in s.sent && HeldBy(s, j, h)
      ensures h in s.sent[j]
    {
      assert h in work[j] && Once(work, before, s, h);
    }
    forall j, h | j in work && h in work[j]
      ensures h in s.ledger
    {
      assert Once(work, before, s, h);
    }
  }

  /**
    Where all jobs of a run are done, each record hash was sent by the one job that owns it, or by nobody
    if somebody held it before, if and only if every sent hash is held, none is lost and every owned one is sent.
   */
  lemma WhenDeliveredOnce(work: map<JobId, set<Hash>>, states: seq<State>, steps: seq<Step>, i: nat)
    requires IsRun(work, states, steps) && i < |states| && states[i].done == work.Keys == states[i].sent.Keys
    ensures DeliveredOnce(work, states[0].ledger, states[i])
            <==> AllHeld(states[i]) && NoneLost(work, states[i]) && AllSent(states[i])
  {
    SaneAlways(work, states, steps, i);
    SendsItsOwnAlways(work, states, steps, i);
    LedgerAlways(work, states, steps, i);
    var before, s := states[0].ledger, states[i];
    if DeliveredOnce(work, before, s) {
      PartsFromOnce(work, before, s);
    }
    if AllHeld(s) && NoneLost(work, s) && AllSent(s) {
      OnceFromParts(work, before, s);
    }
  }

  /** A run that never exposes, loses or strands a hash delivers each exactly once, however its attempts overlap. */
  lemma ExactlyOnceDespiteOverlap(work: map<JobId, set<Hash>>, states: seq<State>, steps: seq<Step>, i: nat)
    requires IsRun(work, states, steps) && i < |states| && states[i].done == work.Keys == states[i].sent.Keys
    requires NeverExposes(states, steps) && NeverLoses(work, states, steps) && NeverStrands(states, steps)
    ensures DeliveredOnce(work, states[0].ledger, states[i])
  {
    HeldUnlessExposed(work, states, steps, i);
    KeptUnlessLost(work, states, steps, i);
    SentUnlessStranded(work, states, steps, i);
    WhenDeliveredOnce(work, states, steps, i);
  }

  /** Where no replaced attempt acts, no step does any of the three. */
  lemma NeverStaleNeverFails(work: map<JobId, set<Hash>>, states: seq<State>, steps: seq<Step>)
    requires IsRun(work, states, steps) && NeverStale(states, steps)
    ensures NeverExposes(states, steps) && NeverLoses(work, states, steps) && NeverStrands(states, steps)
  {
    forall s | s in states
      ensures AllHeld(s) && NoneLost(work, s) && AllSent(s)
    {
      var i :| 0 <= i < |states| && states[i] == s;
      InvAlways(work, states, steps, i);
      PartsOfInv(work, states[0].ledger, s);
    }
    WhenSentHashesStayHeld(work, states, steps);
    WhenNothingIsLost(work, states, steps);
    WhenOwnersHaveSent(work, states, steps);
  }

  lemma PartsOfInv(work: map<JobId, set<Hash>>, before: Ledger, s: State)
    requires Inv(work, before, s)
    ensures AllHeld(s) && NoneLost(work, s) && AllSent(s)
  {
    forall j | j in work
      ensures JobOk(work, s, j)
    {
    }
    forall j, h | j in work && h in work[j] && h !in s.ledger
      ensures Owed(work, s, h)
    {
      var k :| k in work && h in Open(work, s, k);
      assert JobOk(work, s, k);
      if Current(s, k) {
        assert AttemptOk(work, s, s.latest[k]);
      }
      assert h in work[k] && k !in s.done;
    }
  }
}
