/**
  Several sessions on one bucket. Each loads the row without a lock and locks it afterwards, by a query
  that keeps what was loaded; it then decides, and writes, by the row as it was loaded.
 */
module RateSessions {

  import opened RateLimiter

  type Session = nat

  datatype Act =
    | Loads(session: Session)
    | Consumes(session: Session, at: real, count: nat)

  /** The row, and what each session has loaded since its last commit or rollback. */
  datatype Shared = Shared(row: Bucket, loaded: map<Session, Bucket>)

  predicate Enabled(s: Shared, act: Act) {
    act.Consumes? ==> act.session in s.loaded
  }

  predicate Granted(s: Shared, act: Act)
    requires Enabled(s, act)
  {
    act.Consumes? && Available(s.loaded[act.session], act.at) >= act.count as real
  }

  function Acted(s: Shared, act: Act): Shared
    requires Enabled(s, act)
  {
    match act
    case Loads(session) => s.(loaded := s.loaded[session := s.row])
    case Consumes(session, at, count) =>
      var left := Available(s.loaded[session], at) - count as real;
      Shared(if Granted(s, act) then s.row.(tokens := left, lastUpdate := at) else s.row, s.loaded - {session})
  }

  predicate IsRun(s: Shared, acts: seq<Act>)
    decreases |acts|
  {
    acts != [] ==> Enabled(s, acts[0]) && IsRun(Acted(s, acts[0]), acts[1..])
  }

  function TakenByAll(s: Shared, acts: seq<Act>): real
    requires IsRun(s, acts)
    decreases |acts|
  {
    if acts == [] then 0.0
    else (if Granted(s, acts[0]) then acts[0].count as real else 0.0) + TakenByAll(Acted(s, acts[0]), acts[1..])
  }

  /**
    A grant takes from the bucket what it hands out if and only if the loaded row comes to the same amount
    as the current one; if it comes to more, the difference is handed out twice.
   */
  lemma WhenAGrantIsPaidFor(s: Shared, act: Act)
    requires act.Consumes? && Enabled(s, act) && Granted(s, act)
    requires s.loaded[act.session].maxTokens == s.row.maxTokens
    ensures Available(s.row, act.at) - Available(Acted(s, act).row, act.at)
            == act.count as real - (Available(s.loaded[act.session], act.at) - Available(s.row, act.at))
    ensures Available(Acted(s, act).row, act.at) == Available(s.row, act.at) - act.count as real
            <==> Available(s.loaded[act.session], act.at) == Available(s.row, act.at)
  {
    assert Earned(s.row.refillRate, act.at, act.at) == 0.0;
  }

  /** What a session has loaded serves it once: it is as old as its last load, and loaded again before the next use. */
  lemma LoadedOnce(s: Shared, act: Act, other: Session, at: real, count: nat)
    requires Enabled(s, act)
    ensures act.Loads? ==> Acted(s, act).loaded[act.session] == s.row == Acted(s, act).row
    ensures act.Consumes? ==> !Enabled(Acted(s, act), Consumes(act.session, at, count))
    ensures other != act.session ==>
              && (Enabled(Acted(s, act), Consumes(other, at, count)) <==> Enabled(s, Consumes(other, at, count)))
              && (other in s.loaded ==> Acted(s, act).loaded[other] == s.loaded[other])
  {
  }

  /** Every grant is decided on the row as it is, as it would be by reading it under the lock. */
  predicate UpToDate(s: Shared, acts: seq<Act>)
    requires IsRun(s, acts)
    decreases |acts|
  {
    acts != [] ==>
      && (Granted(s, acts[0]) ==> s.loaded[acts[0].session] == s.row)
      && UpToDate(Acted(s, acts[0]), acts[1..])
  }

  /** The grants of a run, as polls of one bucket. */
  function Grantings(s: Shared, acts: seq<Act>): seq<Event>
    requires IsRun(s, acts)
    decreases |acts|
  {
    if acts == [] then []
    else (if Granted(s, acts[0]) then [Poll(acts[0].at, acts[0].count)] else [])
         + Grantings(Acted(s, acts[0]), acts[1..])
  }

  /** Then all sessions together act on the bucket as one would. */
  lemma {:induction false} SessionsActAsOne(s: Shared, acts: seq<Act>)
    requires IsRun(s, acts) && UpToDate(s, acts)
    ensures TakenByAll(s, acts) == Taken(s.row, Grantings(s, acts)) && FixedRate(Grantings(s, acts))
    decreases |acts|
  {
    if acts != [] {
      var t, rest := Acted(s, acts[0]), acts[1..];
      SessionsActAsOne(t, rest);
      if Granted(s, acts[0]) {
        Leading(s.row, Poll(acts[0].at, acts[0].count), Grantings(t, rest), 0.0, 0.0);
        assert t.row == After(s.row, Poll(acts[0].at, acts[0].count));
      } else {
        assert [] + Grantings(t, rest) == Grantings(t, rest);
      }
    }
  }

  /** And so keep its rate bound. */
  lemma RateBoundForSessions(s: Shared, acts: seq<Act>, a: real, z: real)
    requires IsRun(s, acts) && UpToDate(s, acts) && Valid(s.row)
    requires s.row.lastUpdate <= a <= z && InOrder(a, Grantings(s, acts))
    requires forall v | v in Grantings(s, acts) :: v.at <= z
    ensures TakenByAll(s, acts) <= s.row.maxTokens + Earned(s.row.refillRate, a, z)
  {
    SessionsActAsOne(s, acts);
    FixedRateRuns(s.row, Grantings(s, acts), a, z);
    TakenAtMost(s.row, Grantings(s, acts), a, z);
  }

  function Loading(n: nat): seq<Act> {
    if n == 0 then [] else [Loads(n - 1)] + Loading(n - 1)
  }

  function Consuming(n: nat, at: real): seq<Act> {
    if n == 0 then [] else [Consumes(n - 1, at, 1)] + Consuming(n - 1, at)
  }

  lemma {:induction false} AllConsume(s: Shared, n: nat, at: real, seen: Bucket)
    requires forall k: nat | k < n :: k in s.loaded && s.loaded[k] == seen
    requires Available(seen, at) >= 1.0
    ensures IsRun(s, Consuming(n, at)) && TakenByAll(s, Consuming(n, at)) == n as real
    decreases n
  {
    if n > 0 {
      var act := Consumes(n - 1, at, 1);
      AllConsume(Acted(s, act), n - 1, at, seen);
      assert Consuming(n, at)[1..] == Consuming(n - 1, at);
    }
  }

  function AllLoaded(s: Shared, n: nat): Shared
    decreases n
  {
    if n == 0 then s else AllLoaded(Acted(s, Loads(n - 1)), n - 1)
  }

  lemma {:induction false} AllLoadedSee(s: Shared, n: nat, seen: set<Session>)
    requires forall k | k in seen :: k in s.loaded && s.loaded[k] == s.row
    ensures AllLoaded(s, n).row == s.row
    ensures forall k: nat | k < n || k in seen :: k in AllLoaded(s, n).loaded && AllLoaded(s, n).loaded[k] == s.row
    decreases n
  {
    if n > 0 {
      AllLoadedSee(Acted(s, Loads(n - 1)), n - 1, seen + {n - 1});
    }
  }

  lemma OneFirst(s: Shared, act: Act, rest: seq<Act>)
    requires Enabled(s, act) && IsRun(Acted(s, act), rest)
    ensures IsRun(s, [act] + rest)
    ensures TakenByAll(s, [act] + rest)
            == (if Granted(s, act) then act.count as real else 0.0) + TakenByAll(Acted(s, act), rest)
  {
    assert ([act] + rest)[1..] == rest;
  }

  lemma {:induction false} LoadFirst(s: Shared, n: nat, more: seq<Act>)
    requires IsRun(AllLoaded(s, n), more)
    ensures IsRun(s, Loading(n) + more) && TakenByAll(s, Loading(n) + more) == TakenByAll(AllLoaded(s, n), more)
    decreases n
  {
    if n > 0 {
      LoadFirst(Acted(s, Loads(n - 1)), n - 1, more);
      OneFirst(s, Loads(n - 1), Loading(n - 1) + more);
      assert Loading(n) + more == [Loads(n - 1)] + (Loading(n - 1) + more);
    } else {
      assert Loading(0) + more == more;
    }
  }

  /** Any number of sessions that load the row before any of them locks it can all take the one token it holds. */
  lemma SessionsSpendOneToken(n: nat, row: Bucket)
    requires Available(row, row.lastUpdate) >= 1.0
    ensures IsRun(Shared(row, map[]), Loading(n) + Consuming(n, row.lastUpdate))
    ensures TakenByAll(Shared(row, map[]), Loading(n) + Consuming(n, row.lastUpdate)) == n as real
  {
    AllLoadedSee(Shared(row, map[]), n, {});
    AllConsume(AllLoaded(Shared(row, map[]), n), n, row.lastUpdate, row);
    LoadFirst(Shared(row, map[]), n, Consuming(n, row.lastUpdate));
  }
}
