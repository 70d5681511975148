/**
  The shared ledger under any interleaving of attempts. A job may have several live attempts at once,
  when one outlives its lease; a job's hashes are the same on every attempt. An attempt claims chunk by
  chunk in one transaction, commits, sends, and then succeeds, or stops at any moment.
 */
module DedupProtocol {

  import opened JobTable
  import opened ContentDedup

  type AttemptId = nat

  datatype Phase = Claiming | Sending

  /**
    `todo` is still to be inserted; `taken` was found in the ledger by the last insert and is still to
    be looked up; `inserted` is not committed yet.
   */
  datatype Attempt = Attempt(
    job: JobId, phase: Phase, todo: set<Hash>, taken: set<Hash>, won: set<Hash>, inserted: set<Hash>)

  /** `latest` is each job's most recent attempt, `sent` what its successful attempts sent. */
  datatype State = State(
    ledger: Ledger, live: map<AttemptId, Attempt>, latest: map<JobId, AttemptId>,
    sent: map<JobId, set<Hash>>, done: set<JobId>)

  /**
    An attempt that stops may release what it holds, and may report its job as failed: both on an error,
    only the release on a shutdown, neither when the worker dies.
   */
  datatype Step =
    | Begins(a: AttemptId, j: JobId)
    | Inserts(a: AttemptId, part: set<Hash>)
    | Looks(a: AttemptId)
    | Commits(a: AttemptId)
    | Succeeds(a: AttemptId)
    | Stops(a: AttemptId, releases: bool, reports: bool)

  /** Another attempt has inserted this hash and not committed: its row is locked and not visible. */
  predicate Hidden(s: State, a: AttemptId, h: Hash) {
    exists c :: c in s.live && c != a && h in s.live[c].inserted
  }

  function Visible(s: State, a: AttemptId, hashes: set<Hash>): set<Hash> {
    set h | h in hashes && !Hidden(s, a, h)
  }

  predicate Enabled(s: State, step: Step) {
    if step.Begins? then step.a !in s.live && step.j in s.sent && step.j !in s.done
    else
      && step.a in s.live && s.live[step.a].job in s.sent
      && var attempt := s.live[step.a];
      match step
      case Inserts(a, part) =>
        attempt.phase.Claiming? && attempt.taken == {} && part <= attempt.todo && Visible(s, a, part) == part
      case Looks(_) => attempt.phase.Claiming?
      case Commits(_) => attempt.phase.Claiming? && attempt.todo == {} && attempt.taken == {}
      case Succeeds(_) => attempt.phase.Sending?
      case Stops(_, _, _) => true
      case Begins(_, _) => true
  }

  /** The rows that go when an attempt stops: its uncommitted ones, or those it holds if it releases them. */
  function Freed(s: State, a: AttemptId, releases: bool): set<Hash>
    requires a in s.live
  {
    var attempt := s.live[a];
    if attempt.phase.Claiming? then attempt.inserted
    else if releases then Owned(s.ledger, Visible(s, a, attempt.won), attempt.job)
    else {}
  }

  /** `work` gives each job the hashes of its records. */
  function Apply(work: map<JobId, set<Hash>>, s: State, step: Step): State
    requires Enabled(s, step) && s.sent.Keys == work.Keys
  {
    if step.Begins? then
      s.(live := s.live[step.a := Attempt(step.j, Claiming, work[step.j], {}, {}, {})],
         latest := s.latest[step.j := step.a])
    else
      var attempt := s.live[step.a];
      var j := attempt.job;
      match step
      case Inserts(a, part) =>
        var added := part - s.ledger.Keys;
        s.(ledger := Claimed(s.ledger, part, j),
           live := s.live[a := attempt.(todo := attempt.todo - part, taken := part - added,
                                        won := attempt.won + added, inserted := attempt.inserted + added)])
      case Looks(a) =>
        var own := Owned(s.ledger, Visible(s, a, attempt.taken), j);
        s.(live := s.live[a := attempt.(taken := {}, won := attempt.won + own)])
      case Commits(a) => s.(live := s.live[a := attempt.(phase := Sending, inserted := {})])
      case Succeeds(a) => s.(live := s.live - {a}, sent := s.sent[j := s.sent[j] + attempt.won], done := s.done + {j})
      case Stops(a, releases, reports) =>
        s.(ledger := s.ledger - Freed(s, a, releases), live := s.live - {a},
           done := if reports then s.done - {j} else s.done)
      case Begins(_, _) => s
  }

  /** The ledger may already hold entries, of jobs of earlier executions. */
  ghost predicate Init(work: map<JobId, set<Hash>>, s: State) {
    && s.live == map[] && s.latest == map[] && s.done == {} && s.sent == (map j | j in work :: {})
    && forall h | h in s.ledger :: s.ledger[h] !in work
  }

  ghost predicate IsRun(work: map<JobId, set<Hash>>, states: seq<State>, steps: seq<Step>) {
    && |states| == |steps| + 1 && Init(work, states[0])
    && forall i | 0 <= i < |steps| :: Follows(work, states, steps, i)
  }

  ghost predicate Follows(work: map<JobId, set<Hash>>, states: seq<State>, steps: seq<Step>, i: nat)
    requires i < |steps| < |states|
  {
    && states[i].sent.Keys == work.Keys && Enabled(states[i], steps[i])
    && states[i + 1] == Apply(work, states[i], steps[i])
  }

  // ----- what holds of every run -----

  ghost predicate AttemptOk(work: map<JobId, set<Hash>>, s: State, a: AttemptId)
    requires a in s.live
  {
    var attempt := s.live[a];
    && attempt.job in work && attempt.todo + attempt.taken + attempt.won <= work[attempt.job]
    && attempt.todo !! attempt.taken && attempt.todo !! attempt.won && attempt.taken !! attempt.won
    && (attempt.phase.Sending? ==> attempt.todo == {} && attempt.taken == {} && attempt.inserted == {})
    && attempt.inserted <= attempt.won
    && (forall h | h in attempt.inserted :: h in s.ledger && s.ledger[h] == attempt.job)
  }

  ghost predicate Apart(s: State, a: AttemptId, c: AttemptId)
    requires a in s.live && c in s.live
  {
    a != c ==> s.live[a].inserted !! s.live[c].inserted
  }

  ghost predicate Sane(work: map<JobId, set<Hash>>, s: State) {
    && s.sent.Keys == work.Keys
    && (forall a | a in s.live :: AttemptOk(work, s, a))
    && (forall a, c | a in s.live && c in s.live :: Apart(s, a, c))
  }

  lemma FreedIsOwned(work: map<JobId, set<Hash>>, s: State, a: AttemptId, releases: bool)
    requires Sane(work, s) && a in s.live
    ensures forall h | h in Freed(s, a, releases) ::
              h in s.ledger && s.ledger[h] == s.live[a].job && h in work[s.live[a].job]
    ensures forall c, h | c in s.live && c != a && h in Freed(s, a, releases) :: h !in s.live[c].inserted
  {
    assert AttemptOk(work, s, a);
    forall c, h | c in s.live && c != a && h in Freed(s, a, releases)
      ensures h !in s.live[c].inserted
    {
      assert Apart(s, a, c);
      assert h in s.live[c].inserted ==> Hidden(s, a, h);
    }
  }

  /** What a sending attempt frees is what the release statement deletes, of the rows it can see. */
  lemma FreesWhatIsReleased(work: map<JobId, set<Hash>>, s: State, a: AttemptId)
    requires Sane(work, s) && a in s.live && s.live[a].phase.Sending?
    ensures s.ledger - Freed(s, a, true) == Released(s.ledger, Visible(s, a, s.live[a].won), s.live[a].job)
    ensures forall h :: h in Freed(s, a, true) <==>
              && h in s.live[a].won && h in s.ledger && s.ledger[h] == s.live[a].job
              && forall c | c in s.live && c != a :: h !in s.live[c].inserted
    ensures Freed(s, a, false) == {}
  {
  }

  /** An attempt that stops before its commit leaves no row of its own behind, and every other row as it is. */
  lemma UncommittedRowsGo(work: map<JobId, set<Hash>>, s: State, a: AttemptId, releases: bool, reports: bool, h: Hash)
    requires Sane(work, s) && a in s.live && s.live[a].phase.Claiming?
    ensures var t := Apply(work, s, Stops(a, releases, reports));
            && (h in t.ledger <==> h in s.ledger && h !in s.live[a].inserted)
            && (h in t.ledger ==> t.ledger[h] == s.ledger[h])
            && a !in t.live && t.sent == s.sent
            && (t.done == if reports then s.done - {s.live[a].job} else s.done)
  {
  }

  /** A run can begin with whatever ledger jobs of other executions have left. */
  lemma AnyLedgerWillDo(work: map<JobId, set<Hash>>, ledger: Ledger) returns (s: State)
    requires forall h | h in ledger :: ledger[h] !in work
    ensures s.ledger == ledger && IsRun(work, [s], [])
  {
    s := State(ledger, map[], map[], map j | j in work :: {}, {});
  }

  lemma SaneKept(work: map<JobId, set<Hash>>, s: State, step: Step)
    requires Sane(work, s) && Enabled(s, step)
    ensures Sane(work, Apply(work, s, step))
  {
    var t := Apply(work, s, step);
    if step.Stops? {
      FreedIsOwned(work, s, step.a, step.releases);
    }
    forall a | a in t.live
      ensures AttemptOk(work, t, a)
    {
      assert a in s.live ==> AttemptOk(work, s, a);
    }
    forall a, c | a in t.live && c in t.live
      ensures Apart(t, a, c)
    {
      if a in s.live && c in s.live {
        assert Apart(s, a, c) && AttemptOk(work, s, a) && AttemptOk(work, s, c);
      }
    }
  }

  lemma {:induction false} SaneAlways(work: map<JobId, set<Hash>>, states: seq<State>, steps: seq<Step>, i: nat)
    requires IsRun(work, states, steps) && i < |states|
    ensures Sane(work, states[i])
  {
    if i > 0 {
      SaneAlways(work, states, steps, i - 1);
      assert Follows(work, states, steps, i - 1);
      SaneKept(work, states[i - 1], steps[i - 1]);
    }
  }

  // ----- overlapping attempts: when what was sent stays held -----

  ghost predicate HeldBy(s: State, j: JobId, h: Hash) {
    h in s.ledger && s.ledger[h] == j
  }

  /** Every hash that a job has sent is that job's in the ledger, so no other job can claim it. */
  ghost predicate AllHeld(s: State) {
    forall j, h | j in s.sent && h in s.sent[j] :: HeldBy(s, j, h)
  }

  /**
    A step that frees a hash its own job has sent, or a success with a hash that is no longer the job's:
    an overlapping attempt of the job has released it meanwhile.
   */
  predicate Exposes(s: State, step: Step)
    requires Enabled(s, step)
  {
    || (step.Stops? && Freed(s, step.a, step.releases) * s.sent[s.live[step.a].job] != {})
    || (step.Succeeds? && !(s.live[step.a].won <= Owned(s.ledger, s.live[step.a].won, s.live[step.a].job)))
  }

  lemma WhenAStepExposes(work: map<JobId, set<Hash>>, s: State, step: Step)
    requires Sane(work, s) && Enabled(s, step) && AllHeld(s)
    ensures AllHeld(Apply(work, s, step)) <==> !Exposes(s, step)
  {
    var t := Apply(work, s, step);
    if step.Stops? {
      FreedIsOwned(work, s, step.a, step.releases);
      if Exposes(s, step) {
        var h :| h in Freed(s, step.a, step.releases) * s.sent[s.live[step.a].job];
        assert !HeldBy(t, s.live[step.a].job, h);
      }
    } else if step.Succeeds? && Exposes(s, step) {
      var j := s.live[step.a].job;
      var h :| h in s.live[step.a].won && h !in Owned(s.ledger, s.live[step.a].won, j);
      assert h in t.sent[j] && !HeldBy(t, j, h);
    }
    if !Exposes(s, step) {
      forall j, h | j in t.sent && h in t.sent[j]
        ensures HeldBy(t, j, h)
      {
        if h in s.sent[j] {
          assert HeldBy(s, j, h);
          assert step.Stops? ==> h !in Freed(s, step.a, step.releases) * s.sent[s.live[step.a].job];
        } else {
          assert step.Succeeds? && h in Owned(s.ledger, s.live[step.a].won, j);
        }
      }
    }
  }

  ghost predicate ExposedAt(states: seq<State>, steps: seq<Step>, i: nat)
    requires i < |steps| < |states|
  {
    Enabled(states[i], steps[i]) && Exposes(states[i], steps[i])
  }

  ghost predicate NeverExposes(states: seq<State>, steps: seq<Step>)
    requires |states| == |steps| + 1
  {
    forall i | 0 <= i < |steps| :: !ExposedAt(states, steps, i)
  }

  ghost predicate HeldThroughout(states: seq<State>) {
    forall s | s in states :: AllHeld(s)
  }

  /** However attempts overlap, what was sent stays held throughout a run if and only if no step exposes it. */
  lemma WhenSentHashesStayHeld(work: map<JobId, set<Hash>>, states: seq<State>, steps: seq<Step>)
    requires IsRun(work, states, steps)
    ensures HeldThroughout(states) <==> NeverExposes(states, steps)
  {
    if HeldThroughout(states) {
      forall i | 0 <= i < |steps|
        ensures !ExposedAt(states, steps, i)
      {
        assert Follows(work, states, steps, i) && states[i] in states && states[i + 1] in states;
        SaneAlways(work, states, steps, i);
        WhenAStepExposes(work, states[i], steps[i]);
      }
    }
    if NeverExposes(states, steps) {
      forall s | s in states
        ensures AllHeld(s)
      {
        var i :| 0 <= i < |states| && states[i] == s;
        HeldUnlessExposed(work, states, steps, i);
      }
    }
  }

  lemma {:induction false} HeldUnlessExposed(
      work: map<JobId, set<Hash>>, states: seq<State>, steps: seq<Step>, i: nat)
    requires IsRun(work, states, steps) && NeverExposes(states, steps) && i < |states|
    ensures AllHeld(states[i])
  {
    if i > 0 {
      HeldUnlessExposed(work, states, steps, i - 1);
      assert Follows(work, states, steps, i - 1) && !ExposedAt(states, steps, i - 1);
      SaneAlways(work, states, steps, i - 1);
      WhenAStepExposes(work, states[i - 1], steps[i - 1]);
    }
  }

  /** In such a run no hash is ever sent by two jobs. */
  lemma SentByOneJob(
      work: map<JobId, set<Hash>>, states: seq<State>, steps: seq<Step>, i: nat, j: JobId, k: JobId, h: Hash)
    requires IsRun(work, states, steps) && NeverExposes(states, steps) && i < |states|
    requires j in states[i].sent && k in states[i].sent && h in states[i].sent[j] && h in states[i].sent[k]
    ensures j == k && HeldBy(states[i], j, h)
  {
    HeldUnlessExposed(work, states, steps, i);
    assert HeldBy(states[i], j, h) && HeldBy(states[i], k, h);
  }

  // ----- when only the latest attempt of a job acts -----

  /** The job's most recent attempt is live. */
  predicate Current(s: State, j: JobId) {
    j in s.latest && s.latest[j] in s.live && s.live[s.latest[j]].job == j
  }

  predicate IsLatest(s: State, a: AttemptId)
    requires a in s.live
  {
    s.live[a].job in s.latest && s.latest[s.live[a].job] == a
  }

  /**
    An attempt that a newer one of its job has replaced inserts, succeeds, releases or reports.
    It may still look, commit and die.
   */
  predicate Stale(s: State, step: Step)
    requires Enabled(s, step)
  {
    && !step.Begins? && !IsLatest(s, step.a)
    && (step.Inserts? || step.Succeeds? || (step.Stops? && (step.releases || step.reports)))
  }

  /** The hashes that a job has yet to insert in its current attempt, or in the next one. */
  function Open(work: map<JobId, set<Hash>>, s: State, j: JobId): set<Hash>
    requires j in work
  {
    if Current(s, j) then s.live[s.latest[j]].todo else if j in s.done then {} else work[j]
  }

  ghost predicate Outstanding(work: map<JobId, set<Hash>>, s: State, h: Hash) {
    exists j :: j in work && h in Open(work, s, j)
  }

  /**
    What an attempt that is current has won, of what it is through with, is what its job owns; a job
    that is done owns what it sent, and no other has sent anything.
   */
  ghost predicate JobOk(work: map<JobId, set<Hash>>, s: State, j: JobId)
    requires j in work && j in s.sent
  {
    if Current(s, j) then
      var attempt := s.live[s.latest[j]];
      && j !in s.done && s.sent[j] == {}
      && attempt.won == Owned(s.ledger, work[j] - attempt.todo - attempt.taken, j)
    else s.sent[j] == if j in s.done then Owned(s.ledger, work[j], j) else {}
  }

  /** What a replaced attempt has inserted and not committed is still to be inserted by its job. */
  ghost predicate ReplacedOk(work: map<JobId, set<Hash>>, s: State, c: AttemptId)
    requires c in s.live && s.live[c].job in work
  {
    !IsLatest(s, c) ==> s.live[c].inserted <= Open(work, s, s.live[c].job)
  }

  /** Every hash of a job is owned, or some job has yet to insert it. */
  ghost predicate Covered(work: map<JobId, set<Hash>>, s: State) {
    forall j, h | j in work && h in work[j] :: h in s.ledger || Outstanding(work, s, h)
  }

  ghost predicate LedgerOk(work: map<JobId, set<Hash>>, before: Ledger, s: State) {
    && (forall h | h in before :: h in s.ledger && s.ledger[h] == before[h])
    && (forall h | h in s.ledger ::
          if s.ledger[h] in work then h in work[s.ledger[h]] && h !in before else h in before)
  }

  ghost predicate Inv(work: map<JobId, set<Hash>>, before: Ledger, s: State) {
    && Sane(work, s) && LedgerOk(work, before, s) && Covered(work, s)
    && (forall j | j in work :: JobOk(work, s, j))
    && (forall c | c in s.live :: ReplacedOk(work, s, c))
  }

  lemma LedgerKept(work: map<JobId, set<Hash>>, before: Ledger, s: State, step: Step)
    requires Sane(work, s) && LedgerOk(work, before, s) && Enabled(s, step)
    requires forall h | h in before :: before[h] !in work
    ensures LedgerOk(work, before, Apply(work, s, step))
  {
    if !step.Begins? {
      assert AttemptOk(work, s, step.a);
    }
    if step.Stops? {
      FreedIsOwned(work, s, step.a, step.releases);
    }
  }

  /** What becomes of the hashes a job has yet to insert. */
  lemma OpenAfter(work: map<JobId, set<Hash>>, s: State, step: Step, j: JobId)
    requires Sane(work, s) && Enabled(s, step) && !Stale(s, step) && j in work && JobOk(work, s, j)
    ensures var before, after := Open(work, s, j), Open(work, Apply(work, s, step), j);
            if step.Inserts? && s.live[step.a].job == j then after == before - step.part else before <= after
    ensures step.Begins? && step.j == j ==> Open(work, Apply(work, s, step), j) == work[j]
    ensures step.Stops? && s.live[step.a].job == j && IsLatest(s, step.a) ==>
              Open(work, Apply(work, s, step), j) == work[j]
  {
    if Current(s, j) {
      assert AttemptOk(work, s, s.latest[j]);
    }
  }

  lemma CoveredKept(work: map<JobId, set<Hash>>, before: Ledger, s: State, step: Step)
    requires Inv(work, before, s) && Enabled(s, step) && !Stale(s, step)
    ensures Covered(work, Apply(work, s, step))
  {
    var t := Apply(work, s, step);
    forall j, h | j in work && h in work[j]
      ensures h in t.ledger || Outstanding(work, t, h)
    {
      if h in s.ledger {
        if step.Stops? && h in Freed(s, step.a, step.releases) {
          FreedIsOwned(work, s, step.a, step.releases);
          var k := s.live[step.a].job;
          assert JobOk(work, s, k) && ReplacedOk(work, s, step.a);
          OpenAfter(work, s, step, k);
          assert h in Open(work, t, k);
        }
      } else {
        var k :| k in work && h in Open(work, s, k);
        assert JobOk(work, s, k);
        OpenAfter(work, s, step, k);
        assert h in Open(work, t, k) || h in t.ledger;
      }
    }
  }

  lemma ReplacedKept(work: map<JobId, set<Hash>>, before: Ledger, s: State, step: Step)
    requires Inv(work, before, s) && Enabled(s, step) && !Stale(s, step)
    requires Sane(work, Apply(work, s, step))
    ensures forall c | c in Apply(work, s, step).live :: ReplacedOk(work, Apply(work, s, step), c)
  {
    var t := Apply(work, s, step);
    forall c | c in t.live
      ensures ReplacedOk(work, t, c)
    {
      assert AttemptOk(work, t, c);
      if c in s.live && !IsLatest(t, c) {
        var k := s.live[c].job;
        assert AttemptOk(work, s, c) && JobOk(work, s, k) && ReplacedOk(work, s, c);
        OpenAfter(work, s, step, k);
        if step.Inserts? && c != step.a {
          forall h | h in step.part
            ensures h !in s.live[c].inserted
          {
            assert h in Visible(s, step.a, step.part);
            assert !Hidden(s, step.a, h);
          }
        }
      }
    }
  }

  lemma JobKept(work: map<JobId, set<Hash>>, before: Ledger, s: State, step: Step, j: JobId)
    requires Inv(work, before, s) && Enabled(s, step) && !Stale(s, step) && j in work
    ensures JobOk(work, Apply(work, s, step), j)
  {
    assert JobOk(work, s, j);
    match step {
      case Begins(_, _) =>
      case Inserts(a, part) => InsertKeepsJob(work, s, a, part, j);
      case Looks(a) => LookKeepsJob(work, before, s, a, j);
      case Commits(a) => assert AttemptOk(work, s, a);
      case Succeeds(a) => assert AttemptOk(work, s, a);
      case Stops(a, _, _) =>
        assert AttemptOk(work, s, a) && ReplacedOk(work, s, a);
        StopKeepsJob(work, s, step, j);
    }
  }

  lemma InsertKeepsJob(work: map<JobId, set<Hash>>, s: State, a: AttemptId, part: set<Hash>, j: JobId)
    requires Sane(work, s) && j in work && JobOk(work, s, j)
    requires Enabled(s, Inserts(a, part)) && !Stale(s, Inserts(a, part))
    ensures JobOk(work, Apply(work, s, Inserts(a, part)), j)
  {
    var t := Apply(work, s, Inserts(a, part));
    assert AttemptOk(work, s, a);
    if Current(s, j) {
      var b := s.latest[j];
      assert AttemptOk(work, s, b);
      assert t.live[b].won
          == Owned(t.ledger, work[j] - t.live[b].todo - t.live[b].taken, j);
    }
  }

  lemma LookKeepsJob(work: map<JobId, set<Hash>>, before: Ledger, s: State, a: AttemptId, j: JobId)
    requires Inv(work, before, s) && Enabled(s, Looks(a)) && j in work
    ensures JobOk(work, Apply(work, s, Looks(a)), j)
  {
    assert JobOk(work, s, j) && AttemptOk(work, s, a);
    if s.live[a].job == j && IsLatest(s, a) {
      var attempt := s.live[a];
      forall h | h in attempt.taken && HeldBy(s, j, h)
        ensures !Hidden(s, a, h)
      {
        forall c | c in s.live && c != a
          ensures h !in s.live[c].inserted
        {
          assert AttemptOk(work, s, c) && ReplacedOk(work, s, c);
        }
      }
    }
  }

  lemma StopKeepsJob(work: map<JobId, set<Hash>>, s: State, step: Step, j: JobId)
    requires Sane(work, s) && step.Stops? && Enabled(s, step) && !Stale(s, step) && j in work
    requires JobOk(work, s, j) && step.a in s.live && s.live[step.a].job in work && ReplacedOk(work, s, step.a)
    ensures JobOk(work, Apply(work, s, step), j)
  {
    var a := step.a;
    assert AttemptOk(work, s, a);
    FreedIsOwned(work, s, a, step.releases);
    if Current(s, j) {
      assert AttemptOk(work, s, s.latest[j]);
    }
  }

  lemma InvKept(work: map<JobId, set<Hash>>, before: Ledger, s: State, step: Step)
    requires Inv(work, before, s) && Enabled(s, step) && !Stale(s, step)
    requires forall h | h in before :: before[h] !in work
    ensures Inv(work, before, Apply(work, s, step))
  {
    SaneKept(work, s, step);
    LedgerKept(work, before, s, step);
    CoveredKept(work, before, s, step);
    ReplacedKept(work, before, s, step);
    forall j | j in work
      ensures JobOk(work, Apply(work, s, step), j)
    {
      JobKept(work, before, s, step, j);
    }
  }

  ghost predicate StaleAt(states: seq<State>, steps: seq<Step>, i: nat)
    requires i < |steps| < |states|
  {
    Enabled(states[i], steps[i]) && Stale(states[i], steps[i])
  }

  /** No step of a run is one of a replaced attempt that matters. */
  ghost predicate NeverStale(states: seq<State>, steps: seq<Step>)
    requires |states| == |steps| + 1
  {
    forall i | 0 <= i < |steps| :: !StaleAt(states, steps, i)
  }

  lemma {:induction false} InvAlways(work: map<JobId, set<Hash>>, states: seq<State>, steps: seq<Step>, i: nat)
    requires IsRun(work, states, steps) && NeverStale(states, steps) && i < |states|
    ensures Inv(work, states[0].ledger, states[i])
  {
    if i > 0 {
      InvAlways(work, states, steps, i - 1);
      assert Follows(work, states, steps, i - 1) && !StaleAt(states, steps, i - 1);
      InvKept(work, states[0].ledger, states[i - 1], steps[i - 1]);
    } else {
      InitInv(work, states[0]);
    }
  }

  lemma InitInv(work: map<JobId, set<Hash>>, s: State)
    requires Init(work, s)
    ensures Inv(work, s.ledger, s)
  {
    forall j, h | j in work && h in work[j]
      ensures Outstanding(work, s, h)
    {
      assert h in Open(work, s, j);
    }
  }

  /**
    At every moment: a hash of a job that is done has an owner, or some job that is not done has yet to
    insert it. Nothing that was dropped as a duplicate can be lost for good.
   */
  lemma NothingLost(work: map<JobId, set<Hash>>, states: seq<State>, steps: seq<Step>, i: nat, j: JobId, h: Hash)
    requires IsRun(work, states, steps) && NeverStale(states, steps) && i < |states|
    requires j in work && h in work[j]
    ensures h in states[i].ledger
         || exists k :: k in work && h in work[k] && k !in states[i].done
  {
    InvAlways(work, states, steps, i);
    var s := states[i];
    if h !in s.ledger {
      var k :| k in work && h in Open(work, s, k);
      assert JobOk(work, s, k);
      if Current(s, k) {
        assert AttemptOk(work, s, s.latest[k]);
      }
      assert h in work[k] && k !in s.done;
    }
  }

  /**
    Exactly once. When every job is done, each record hash has one owner; the owner is a job of this run
    exactly if nobody held the hash before, and then it is the one job that has sent it.
   */
  lemma ExactlyOnce(work: map<JobId, set<Hash>>, states: seq<State>, steps: seq<Step>, i: nat, j: JobId, h: Hash)
    requires IsRun(work, states, steps) && NeverStale(states, steps) && i < |states|
    requires states[i].done == work.Keys == states[i].sent.Keys && j in work && h in work[j]
    ensures h in states[i].ledger
    ensures states[i].ledger[h] in work <==> h !in states[0].ledger
    ensures h in states[0].ledger ==>
              states[i].ledger[h] == states[0].ledger[h] && forall k | k in work :: h !in states[i].sent[k]
    ensures h !in states[0].ledger ==> forall k | k in work :: h in states[i].sent[k] <==> k == states[i].ledger[h]
  {
    InvAlways(work, states, steps, i);
    NothingLost(work, states, steps, i, j, h);
    var s := states[i];
    forall k | k in work
      ensures h in s.sent[k] <==> s.ledger[h] == k
    {
      assert JobOk(work, s, k);
    }
  }

  /** A job begins an attempt only when it has none live. */
  predicate OneAtATime(s: State, step: Step) {
    step.Begins? ==> forall c | c in s.live :: s.live[c].job != step.j
  }

  /** Then no attempt is ever replaced. */
  lemma {:induction false} NeverReplaced(work: map<JobId, set<Hash>>, states: seq<State>, steps: seq<Step>, i: nat)
    requires IsRun(work, states, steps) && i < |states|
    requires forall k | 0 <= k < |steps| :: OneAtATime(states[k], steps[k])
    ensures forall a | a in states[i].live :: IsLatest(states[i], a)
    ensures i < |steps| ==> !StaleAt(states, steps, i)
  {
    if i > 0 {
      NeverReplaced(work, states, steps, i - 1);
      assert Follows(work, states, steps, i - 1) && OneAtATime(states[i - 1], steps[i - 1]);
    }
    if i < |steps| {
      assert Follows(work, states, steps, i);
    }
  }

  /** One live attempt per job is enough for all that holds of runs in which no replaced attempt acts. */
  lemma OneAttemptIsEnough(work: map<JobId, set<Hash>>, states: seq<State>, steps: seq<Step>)
    requires IsRun(work, states, steps)
    requires forall k | 0 <= k < |steps| :: OneAtATime(states[k], steps[k])
    ensures NeverStale(states, steps)
  {
    forall i | 0 <= i < |steps|
      ensures !StaleAt(states, steps, i)
    {
      NeverReplaced(work, states, steps, i);
    }
  }
}
