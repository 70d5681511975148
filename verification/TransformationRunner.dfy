/**
  Applying a pipeline's transformations. The list of steps is resolved again after every step, always
  from the original records and from the runtime parameters the steps so far have left behind.
 */
module TransformationRunner {

  import opened Wrappers

  /** Why a step did not return. The first two pass through the runner unchanged. */
  datatype Problem =
    SkipsJob | AlreadyReported | SkipsRecord | RecordBroke(index: nat) | BadOutput(culprit: nat) | Crash

  datatype Outcome<R, P> = Returned(records: seq<R>, params: P) | Raised(problem: Problem)

  /**
    What user code decides: the list of steps for some records and parameters, what a step makes of
    its input, its name, and the first record of a result that breaks the type the step promises.
   */
  datatype Pipeline<!S, !R, !P> = Pipeline(
    define: (seq<R>, P) -> seq<S>,
    run: (S, seq<R>, P) -> Outcome<R, P>,
    name: S -> string,
    firstInvalid: (S, seq<R>) -> Option<nat>,
    validateSteps: bool)

  /** One step, with the check of its output when the pipeline asks for it. */
  function Attempt<S, R, P>(p: Pipeline<S, R, P>, step: S, records: seq<R>, params: P): Outcome<R, P> {
    var result := p.run(step, records, params);
    if result.Returned? && p.validateSteps && p.firstInvalid(step, result.records).Some?
    then Raised(BadOutput(p.firstInvalid(step, result.records).value))
    else result
  }

  /** The steps applied once each, in order, stopping at the first that does not return. */
  function Fold<S, R, P>(p: Pipeline<S, R, P>, steps: seq<S>, records: seq<R>, params: P): Outcome<R, P> {
    if steps == [] then Returned(records, params)
    else
      var before := Fold(p, steps[..|steps| - 1], records, params);
      if before.Returned? then Attempt(p, steps[|steps| - 1], before.records, before.params) else before
  }

  datatype AppliedStep = AppliedStep(name: string, recordsIn: nat, recordsOut: nat)

  datatype Ending<R> =
    | Completed(records: seq<R>, applied: seq<AppliedStep>)
    | PassedOn(problem: Problem)
    | Failed(name: string, stepIndex: nat, recordsIn: nat, problem: Problem, applied: seq<AppliedStep>)
    | TooManySteps

  // ----- the states a run goes through -----

  datatype Moment<R, P> = Moment(records: seq<R>, params: P)

  /** The list resolved at a moment of a run. */
  function ListAt<S, R, P>(p: Pipeline<S, R, P>, original: seq<R>, m: Moment<R, P>): seq<S> {
    p.define(original, m.params)
  }

  /** Step i took the run from moment i to moment i + 1, and was position i of the list at moment i. */
  ghost predicate Moves<S, R, P>(p: Pipeline<S, R, P>, original: seq<R>, trail: seq<Moment<R, P>>, i: nat)
    requires i + 1 < |trail|
  {
    var list := ListAt(p, original, trail[i]);
    && i < |list|
    && Attempt(p, list[i], trail[i].records, trail[i].params) == Returned(trail[i + 1].records, trail[i + 1].params)
  }

  ghost predicate IsTrail<S, R, P>(p: Pipeline<S, R, P>, original: seq<R>, params: P, trail: seq<Moment<R, P>>) {
    && trail != [] && trail[0] == Moment(original, params)
    && forall i | 0 <= i < |trail| - 1 :: Moves(p, original, trail, i)
  }

  /** The log entry of step i. */
  ghost predicate Logs<S, R, P>(
      p: Pipeline<S, R, P>, original: seq<R>, trail: seq<Moment<R, P>>, applied: seq<AppliedStep>, i: nat)
    requires i < |applied| && i + 1 < |trail| && Moves(p, original, trail, i)
  {
    applied[i] == AppliedStep(
      p.name(ListAt(p, original, trail[i])[i]), |trail[i].records|, |trail[i + 1].records|)
  }

  ghost predicate IsLog<S, R, P>(
      p: Pipeline<S, R, P>, original: seq<R>, params: P, trail: seq<Moment<R, P>>, applied: seq<AppliedStep>)
    requires IsTrail(p, original, params, trail)
  {
    |trail| == |applied| + 1 && forall i | 0 <= i < |applied| :: Logs(p, original, trail, applied, i)
  }

  /** How a run that has come as far as its last moment ends there. */
  ghost predicate Ends<S, R, P>(
      p: Pipeline<S, R, P>, original: seq<R>, last: Moment<R, P>, applied: seq<AppliedStep>, maxSteps: int,
      ending: Ending<R>)
  {
    var list := ListAt(p, original, last);
    var n := |applied|;
    if |list| <= n then
      ending == Completed(last.records, applied)
    else if n >= maxSteps then
      ending == TooManySteps
    else
      var attempt := Attempt(p, list[n], last.records, last.params);
      && attempt.Raised?
      && ending == if attempt.problem.SkipsJob? || attempt.problem.AlreadyReported?
                   then PassedOn(attempt.problem)
                   else Failed(p.name(list[n]), n, |last.records|, attempt.problem, applied)
  }

  /** A trail, its log and the ending a run comes to; no more than `maxSteps` steps are ever applied. */
  ghost predicate Explains<S, R, P>(
      p: Pipeline<S, R, P>, original: seq<R>, params: P, maxSteps: int,
      trail: seq<Moment<R, P>>, log: seq<AppliedStep>, ending: Ending<R>)
  {
    && IsTrail(p, original, params, trail) && IsLog(p, original, params, trail, log)
    && |log| <= (if maxSteps > 0 then maxSteps else 0)
    && Ends(p, original, trail[|log|], log, maxSteps, ending)
  }

  /** The loop. Its ending is that of the one trail of moments its own steps produce. */
  method ApplyIteratively<S(!new), R(!new), P(!new)>(
      p: Pipeline<S, R, P>, original: seq<R>, params: P, maxSteps: int)
    returns (ending: Ending<R>)
    ensures exists trail, log :: Explains(p, original, params, maxSteps, trail, log, ending)
  {
    var transformed, runtimeParams := original, params;
    var applied: seq<AppliedStep> := [];
    ghost var trail := [Moment(original, params)];
    while true
      invariant IsTrail(p, original, params, trail) && IsLog(p, original, params, trail, applied)
      invariant trail[|applied|] == Moment(transformed, runtimeParams)
      invariant |applied| <= if maxSteps > 0 then maxSteps else 0
      decreases maxSteps - |applied|
    {
      var current := p.define(original, runtimeParams);
      if |current| <= |applied| {
        ending := Completed(transformed, applied);
        assert Explains(p, original, params, maxSteps, trail, applied, ending);
        return;
      }
      if |applied| >= maxSteps {
        ending := TooManySteps;
        assert Explains(p, original, params, maxSteps, trail, applied, ending);
        return;
      }
      var step := current[|applied|];
      var attempt := Attempt(p, step, transformed, runtimeParams);
      match attempt {
        case Raised(problem) =>
          ending := if problem.SkipsJob? || problem.AlreadyReported? then PassedOn(problem)
                    else Failed(p.name(step), |applied|, |transformed|, problem, applied);
          assert Explains(p, original, params, maxSteps, trail, applied, ending);
          return;
        case Returned(records, newParams) =>
          ghost var was, wasApplied := trail, applied;
          trail := trail + [Moment(records, newParams)];
          applied := applied + [AppliedStep(p.name(step), |transformed|, |records|)];
          transformed, runtimeParams := records, newParams;
          Extended(p, original, params, was, wasApplied, trail, applied);
      }
    }
  }

  lemma Extended<S, R, P>(
      p: Pipeline<S, R, P>, original: seq<R>, params: P,
      was: seq<Moment<R, P>>, wasApplied: seq<AppliedStep>, trail: seq<Moment<R, P>>, applied: seq<AppliedStep>)
    requires IsTrail(p, original, params, was) && IsLog(p, original, params, was, wasApplied)
    requires |trail| == |was| + 1 && trail[..|was|] == was
    requires |applied| == |wasApplied| + 1 && applied[..|wasApplied|] == wasApplied
    requires Moves(p, original, trail, |was| - 1) && Logs(p, original, trail, applied, |was| - 1)
    ensures IsTrail(p, original, params, trail) && IsLog(p, original, params, trail, applied)
  {
    forall i | 0 <= i < |was|
      ensures trail[i] == was[i]
    {
      assert trail[..|was|][i] == was[i];
    }
    forall i | 0 <= i < |was| - 1
      ensures Moves(p, original, trail, i) && Logs(p, original, trail, applied, i)
    {
      assert Moves(p, original, was, i) && Logs(p, original, was, wasApplied, i);
      assert applied[..|wasApplied|][i] == wasApplied[i];
    }
  }

  /** A pipeline, records and parameters have one trail: two trails agree as far as both go. */
  lemma {:induction false} TrailIsDetermined<S, R, P>(
      p: Pipeline<S, R, P>, original: seq<R>, params: P,
      a: seq<Moment<R, P>>, b: seq<Moment<R, P>>, i: nat)
    requires IsTrail(p, original, params, a) && IsTrail(p, original, params, b)
    requires i < |a| && i < |b|
    ensures a[i] == b[i]
  {
    if i > 0 {
      TrailIsDetermined(p, original, params, a, b, i - 1);
      assert Moves(p, original, a, i - 1) && Moves(p, original, b, i - 1);
    }
  }

  /** And so one ending: whatever explains a run of the loop, it explains the same result. */
  lemma EndingIsDetermined<S, R, P>(
      p: Pipeline<S, R, P>, original: seq<R>, params: P, maxSteps: int,
      a: seq<Moment<R, P>>, logA: seq<AppliedStep>, endingA: Ending<R>,
      b: seq<Moment<R, P>>, logB: seq<AppliedStep>, endingB: Ending<R>)
    requires Explains(p, original, params, maxSteps, a, logA, endingA)
    requires Explains(p, original, params, maxSteps, b, logB, endingB)
    ensures a == b && logA == logB && endingA == endingB
  {
    NoFurther(p, original, params, maxSteps, a, logA, endingA, b);
    NoFurther(p, original, params, maxSteps, b, logB, endingB, a);
    forall i | 0 <= i < |a|
      ensures a[i] == b[i]
    {
      TrailIsDetermined(p, original, params, a, b, i);
    }
    forall i | 0 <= i < |logA|
      ensures logA[i] == logB[i]
    {
      assert Logs(p, original, a, logA, i) && Logs(p, original, b, logB, i);
    }
  }

  /** A trail does not go on after the moment a run ended, short of the step limit. */
  lemma NoFurther<S, R, P>(
      p: Pipeline<S, R, P>, original: seq<R>, params: P, maxSteps: int,
      a: seq<Moment<R, P>>, logA: seq<AppliedStep>, endingA: Ending<R>, b: seq<Moment<R, P>>)
    requires Explains(p, original, params, maxSteps, a, logA, endingA)
    requires IsTrail(p, original, params, b)
    ensures |b| <= |a| || |b| - 1 > if maxSteps > 0 then maxSteps else 0
  {
    if |b| > |a| {
      TrailIsDetermined(p, original, params, a, b, |logA|);
      assert Moves(p, original, b, |logA|);
    }
  }

  /** The counts around the steps fit together: what one step puts out, the next takes in. */
  lemma CountsFitTogether<S, R, P>(
      p: Pipeline<S, R, P>, original: seq<R>, params: P, trail: seq<Moment<R, P>>, log: seq<AppliedStep>, i: nat)
    requires IsTrail(p, original, params, trail) && IsLog(p, original, params, trail, log)
    requires i < |log|
    ensures log[i].recordsIn == if i == 0 then |original| else log[i - 1].recordsOut
    ensures i == |log| - 1 ==> log[i].recordsOut == |trail[|log|].records|
  {
    assert Logs(p, original, trail, log, i);
    if i > 0 {
      assert Logs(p, original, trail, log, i - 1);
    }
  }

  // ----- what an attempt and an ending tell -----

  /** A step's output is checked exactly if the pipeline asks for it, and the first record that breaks it is blamed. */
  lemma AttemptChecks<S, R, P>(p: Pipeline<S, R, P>, step: S, records: seq<R>, params: P)
    ensures var result, attempt := p.run(step, records, params), Attempt(p, step, records, params);
            && (result.Raised? ==> attempt == result)
            && (!p.validateSteps ==> attempt == result)
            && (result.Returned? && p.validateSteps ==>
                  match p.firstInvalid(step, result.records)
                  case None => attempt == result
                  case Some(i) => attempt == Raised(BadOutput(i)))
  {
  }

  /**
    A run completes with the records of its last moment once every listed step was applied; it passes on a
    skipped job and a failure already reported, and names the step, its place and its input for any other.
   */
  lemma EndingTells<S, R, P>(
      p: Pipeline<S, R, P>, original: seq<R>, params: P, maxSteps: int,
      trail: seq<Moment<R, P>>, log: seq<AppliedStep>, ending: Ending<R>)
    requires Explains(p, original, params, maxSteps, trail, log, ending)
    ensures var last := trail[|log|];
            var list := p.define(original, last.params);
            && (ending.Completed? <==> |list| <= |log|)
            && (ending.Completed? ==> ending.records == last.records && ending.applied == log)
            && (ending.TooManySteps? <==> |list| > |log| && |log| >= maxSteps)
            && (ending.PassedOn? ==> ending.problem == SkipsJob || ending.problem == AlreadyReported)
            && (ending.Failed? ==>
                  && ending.problem != SkipsJob && ending.problem != AlreadyReported
                  && |log| < |list| && ending.name == p.name(list[|log|]) && ending.stepIndex == |log|
                  && ending.recordsIn == |last.records| && ending.applied == log)
            && (ending.PassedOn? || ending.Failed? ==>
                  |log| < |list| && Attempt(p, list[|log|], last.records, last.params) == Raised(ending.problem))
    ensures trail[0] == Moment(original, params)
  {
  }

  // ----- append-only lists -----

  /** Along the trail, resolving again only ever appends. */
  ghost predicate AppendOnly<S, R, P>(p: Pipeline<S, R, P>, original: seq<R>, trail: seq<Moment<R, P>>) {
    forall i | 0 <= i < |trail| - 1 :: Appends(p, original, trail, i)
  }

  ghost predicate Appends<S, R, P>(p: Pipeline<S, R, P>, original: seq<R>, trail: seq<Moment<R, P>>, i: nat)
    requires i + 1 < |trail|
  {
    ListAt(p, original, trail[i]) <= ListAt(p, original, trail[i + 1])
  }

  /** An append-only run is, at every moment, the fold of the steps its current list has shown so far. */
  lemma {:induction false} MomentIsFold<S, R, P>(
      p: Pipeline<S, R, P>, original: seq<R>, params: P, trail: seq<Moment<R, P>>, i: nat)
    requires IsTrail(p, original, params, trail) && AppendOnly(p, original, trail) && i < |trail|
    ensures i <= |ListAt(p, original, trail[i])|
    ensures Fold(p, ListAt(p, original, trail[i])[..i], original, params)
            == Returned(trail[i].records, trail[i].params)
  {
    if i > 0 {
      MomentIsFold(p, original, params, trail, i - 1);
      assert Moves(p, original, trail, i - 1) && Appends(p, original, trail, i - 1);
      var before, now := ListAt(p, original, trail[i - 1]), ListAt(p, original, trail[i]);
      assert now[..i][..i - 1] == before[..i - 1];
      assert now[..i][i - 1] == before[i - 1];
    }
  }

  /**
    The runner equals a fold. If the list only grew, a run that completes has applied every step of
    the final list exactly once, in list order, to the original records and parameters; one that
    fails is the fold of its last list up to the step that failed.
   */
  lemma AppendOnlyRunIsAFold<S, R, P>(
      p: Pipeline<S, R, P>, original: seq<R>, params: P, maxSteps: int,
      trail: seq<Moment<R, P>>, log: seq<AppliedStep>, ending: Ending<R>)
    requires Explains(p, original, params, maxSteps, trail, log, ending)
    requires AppendOnly(p, original, trail)
    ensures var list := ListAt(p, original, trail[|log|]);
            && (ending.Completed? ==>
                  && Fold(p, list, original, params) == Returned(ending.records, trail[|log|].params)
                  && |log| == |list| && forall i | 0 <= i < |log| :: log[i].name == p.name(list[i]))
            && (ending.PassedOn? || ending.Failed? ==>
                  |log| < |list| && Fold(p, list[..|log| + 1], original, params) == Raised(ending.problem))
            && (ending.TooManySteps? ==>
                  && |log| < |list| && |log| == (if maxSteps > 0 then maxSteps else 0)
                  && Fold(p, list[..|log|], original, params).Returned?)
  {
    var n, list := |log|, ListAt(p, original, trail[|log|]);
    MomentIsFold(p, original, params, trail, n);
    if ending.Completed? {
      assert list[..n] == list;
      forall i | 0 <= i < n
        ensures log[i].name == p.name(list[i])
      {
        assert Moves(p, original, trail, i) && Logs(p, original, trail, log, i);
        ListsGrow(p, original, params, trail, i, n);
        assert ListAt(p, original, trail[i])[i] == list[i];
      }
    } else if ending.PassedOn? || ending.Failed? {
      assert list[..n + 1][..n] == list[..n];
    }
  }

  lemma {:induction false} ListsGrow<S, R, P>(
      p: Pipeline<S, R, P>, original: seq<R>, params: P, trail: seq<Moment<R, P>>, i: nat, k: nat)
    requires IsTrail(p, original, params, trail) && AppendOnly(p, original, trail) && i <= k < |trail|
    ensures ListAt(p, original, trail[i]) <= ListAt(p, original, trail[k])
  {
    if i < k {
      ListsGrow(p, original, params, trail, i, k - 1);
      assert Appends(p, original, trail, k - 1);
    }
  }

  /** An `Extend` step marks the parameters, and then a `Late` step is listed in front of it. */
  datatype Kind = Extend | Late

  function Prepending(): Pipeline<Kind, int, bool> {
    Pipeline(
      (records: seq<int>, marked: bool) => if marked then [Late, Extend] else [Extend],
      (step: Kind, records: seq<int>, marked: bool) =>
        if step.Extend? then Returned(records + [1], true) else Returned(records + [2], marked),
      (step: Kind) => if step.Extend? then "extend" else "late",
      (step: Kind, records: seq<int>) => None,
      false)
  }

  /**
    The list has to be append-only: when resolving again puts a step in front, the run applies one
    step twice and the new one never, and is not the fold of the list it ends with.
   */
  lemma PrependedStepIsMissed()
    ensures var p := Prepending();
            var trail := [Moment([], false), Moment([1], true), Moment([1, 1], true)];
            var log := [AppliedStep("extend", 0, 1), AppliedStep("extend", 1, 2)];
            && Explains(p, [], false, 1000, trail, log, Completed([1, 1], log))
            && Fold(p, ListAt(p, [], trail[2]), [], false) == Returned([2, 1], true)
  {
    var p := Prepending();
    var trail := [Moment([], false), Moment([1], true), Moment([1, 1], true)];
    assert Moves(p, [], trail, 0) && Moves(p, [], trail, 1);
    assert [Late, Extend][..1] == [Late];
    assert Fold(p, [], [], false) == Returned([], false);
    assert Fold(p, [Late], [], false) == Returned([2], false);
  }
}
