/**
  The token bucket that paces dispatching. The bucket is refilled lazily: its row only changes
  when tokens are taken, and what it holds at a later time is computed from the row.
 */
module RateLimiter {

  import opened Wrappers

  const SECONDS_PER_MINUTE := 60.0

  datatype Bucket = Bucket(tokens: real, maxTokens: real, refillRate: real, lastUpdate: real)

  function Min(a: real, b: real): real {
    if a <= b then a else b
  }

  function Max(a: real, b: real): real {
    if a >= b then a else b
  }

  function TokensPerSecond(ratePerMinute: real): real {
    ratePerMinute / SECONDS_PER_MINUTE
  }

  /** One token to start with, so a new bucket allows no burst. */
  function NewBucket(rate: real, now: real): Bucket {
    Bucket(1.0, Max(1.0, rate), rate, now)
  }

  /** Size and rate fit; a change of rate may have left more tokens stored than the size. */
  predicate Sound(b: Bucket) {
    0.0 <= b.tokens && b.refillRate > 0.0 && b.maxTokens == Max(1.0, b.refillRate)
  }

  predicate Valid(b: Bucket) {
    Sound(b) && b.tokens <= b.maxTokens
  }

  /** What a rate earns between two times. */
  function Earned(rate: real, from: real, to: real): real {
    (to - from) * rate
  }

  /** What the bucket holds at time `t`. */
  function Available(b: Bucket, t: real): real {
    Min(b.tokens + Earned(b.refillRate, b.lastUpdate, t), b.maxTokens)
  }

  // ----- one bucket over time -----

  datatype Event =
    | Poll(at: real, count: nat)    // an attempt to take tokens
    | Refill(at: real)              // a look that stores the refilled amount
    | Retune(at: real, rate: real)  // the first call at a new rate

  function Grants(b: Bucket, v: Event): bool {
    v.Poll? && Available(b, v.at) >= v.count as real
  }

  function After(b: Bucket, v: Event): Bucket {
    match v
    case Poll(at, count) =>
      if Grants(b, v) then b.(tokens := Available(b, at) - count as real, lastUpdate := at) else b
    case Refill(at) => b.(tokens := Available(b, at), lastUpdate := at)
    case Retune(_, rate) => Retuned(b, rate)
  }

  /** A poll is granted what the bucket holds by then, up to its size, and only a grant is written. */
  lemma PollIs(b: Bucket, at: real, count: nat)
    ensures var earned := b.tokens + (at - b.lastUpdate) * b.refillRate;
            var held := if earned > b.maxTokens then b.maxTokens else earned;
            && (Grants(b, Poll(at, count)) <==> held >= count as real)
            && After(b, Poll(at, count)) == (if held >= count as real
                                             then b.(tokens := held - count as real, lastUpdate := at) else b)
            && After(b, Refill(at)) == b.(tokens := held, lastUpdate := at)
  {
    assert Earned(b.refillRate, b.lastUpdate, at) == (at - b.lastUpdate) * b.refillRate;
    var earned := b.tokens + (at - b.lastUpdate) * b.refillRate;
    assert Available(b, at) == if earned > b.maxTokens then b.maxTokens else earned;
  }

  /** A new rate takes effect without a refill: tokens and their time stay. */
  function Retuned(b: Bucket, rate: real): Bucket {
    b.(refillRate := rate, maxTokens := Max(1.0, rate))
  }

  function AfterAll(b: Bucket, vs: seq<Event>): Bucket
    decreases |vs|
  {
    if vs == [] then b else AfterAll(After(b, vs[0]), vs[1..])
  }

  function Taken(b: Bucket, vs: seq<Event>): real
    decreases |vs|
  {
    if vs == [] then 0.0
    else (if Grants(b, vs[0]) then vs[0].count as real else 0.0) + Taken(After(b, vs[0]), vs[1..])
  }

  /** The events happen in order, none before `from`. */
  ghost predicate InOrder(from: real, vs: seq<Event>)
    decreases |vs|
  {
    vs != [] ==> from <= vs[0].at && InOrder(vs[0].at, vs[1..])
  }

  lemma EarningsGrow(rate: real, s: real, t: real)
    requires rate > 0.0 && s <= t
    ensures Earned(rate, s, t) >= 0.0
    ensures s == t ==> Earned(rate, s, t) == 0.0
  {
  }

  lemma EarningsAdd(rate: real, r: real, s: real, t: real)
    requires rate > 0.0 && r <= s <= t
    ensures Earned(rate, r, t) == Earned(rate, r, s) + Earned(rate, s, t)
    ensures Earned(rate, r, s) >= 0.0 && Earned(rate, s, t) >= 0.0
  {
    EarningsGrow(rate, r, s);
    EarningsGrow(rate, s, t);
  }

  lemma Accrues(b: Bucket, s: real, t: real)
    requires Sound(b) && b.lastUpdate <= s <= t
    ensures 0.0 <= Available(b, s) <= Available(b, t) <= Available(b, s) + Earned(b.refillRate, s, t)
  {
    EarningsAdd(b.refillRate, b.lastUpdate, s, t);
  }

  /** Refilling on the way changes nothing: straight to `t` or stored at `s` first, the amount is the same. */
  lemma LazyRefillIsSound(b: Bucket, s: real, t: real)
    requires Valid(b) && b.lastUpdate <= s <= t
    ensures Available(After(b, Refill(s)), t) == Available(b, t)
    ensures Valid(After(b, Refill(s)))
  {
    EarningsAdd(b.refillRate, b.lastUpdate, s, t);
  }

  /** A change of rate that does not conjure up tokens. */
  predicate SafeChange(b: Bucket, v: Event) {
    v.Retune? ==>
      || v.rate <= b.refillRate
      || (v.at == b.lastUpdate && b.tokens <= b.maxTokens)
      || (Available(b, v.at) == b.maxTokens && Max(1.0, v.rate) == b.maxTokens)
  }

  predicate Proper(v: Event) {
    v.Retune? ==> v.rate > 0.0
  }

  /**
    The new rate is credited for the time since the last update, too. That leaves more available than
    before exactly if the rate rises, unless no time has passed or the bucket is full and keeps its size.
   */
  lemma WhenARateChangeIsSafe(b: Bucket, v: Event)
    requires Sound(b) && v.Retune? && Proper(v) && b.lastUpdate <= v.at
    ensures Available(After(b, v), v.at) <= Available(b, v.at) <==> SafeChange(b, v)
  {
    RatesCompare(b.refillRate, v.rate, b.lastUpdate, v.at);
  }

  lemma RatesCompare(low: real, high: real, s: real, t: real)
    requires s <= t
    ensures low <= high ==> Earned(low, s, t) <= Earned(high, s, t)
    ensures low < high && s < t ==> Earned(low, s, t) < Earned(high, s, t)
    ensures low >= high ==> Earned(low, s, t) >= Earned(high, s, t)
    ensures s == t ==> Earned(low, s, t) == Earned(high, s, t) == 0.0
  {
  }

  /** What a new rate credits a bucket with at the moment of the change, before the size is applied. */
  function Credited(b: Bucket, v: Event): real
    requires v.Retune?
  {
    b.tokens + Earned(v.rate, b.lastUpdate, v.at)
  }

  /**
    From then on the bucket holds what the two rates earned, each in its own time, if and only if what
    was credited is what the old rate had earned, or both fill the bucket.
   */
  lemma WhenARateChangeIsFair(b: Bucket, v: Event, t: real)
    requires Sound(b) && v.Retune? && Proper(v) && b.lastUpdate <= v.at <= t
    ensures Available(After(b, v), t) == Available(After(After(b, Refill(v.at)), v), t) <==>
              || Credited(b, v) == Available(b, v.at)
              || Min(Credited(b, v), Available(b, v.at)) + Earned(v.rate, v.at, t) >= Max(1.0, v.rate)
    ensures Available(b, v.at) < b.maxTokens ==>
              (Credited(b, v) == Available(b, v.at) <==> v.rate == b.refillRate || v.at == b.lastUpdate)
  {
    EarningsAdd(v.rate, b.lastUpdate, v.at, t);
    RatesCompare(b.refillRate, v.rate, b.lastUpdate, v.at);
    RatesCompare(v.rate, b.refillRate, b.lastUpdate, v.at);
  }

  lemma OneEvent(b: Bucket, v: Event)
    requires Sound(b) && Proper(v) && SafeChange(b, v) && b.lastUpdate <= v.at
    ensures Sound(After(b, v)) && After(b, v).lastUpdate <= v.at
    ensures Available(After(b, v), v.at) <= Available(b, v.at) - if Grants(b, v) then v.count as real else 0.0
    ensures !v.Retune? && Valid(b) ==>
              Valid(After(b, v)) && After(b, v).refillRate == b.refillRate && After(b, v).maxTokens == b.maxTokens
  {
    EarningsGrow(b.refillRate, b.lastUpdate, v.at);
    EarningsGrow(b.refillRate, v.at, v.at);
    if v.Retune? {
      WhenARateChangeIsSafe(b, v);
    }
  }

  /** What the rates earn, each while it is in force. */
  function InForce(b: Bucket, vs: seq<Event>, from: real, to: real): real
    decreases |vs|
  {
    if vs == [] then Earned(b.refillRate, from, to)
    else Earned(b.refillRate, from, vs[0].at) + InForce(After(b, vs[0]), vs[1..], vs[0].at, to)
  }

  /** Every change of rate along the run is proper and safe. */
  predicate SafeChanges(b: Bucket, vs: seq<Event>)
    decreases |vs|
  {
    vs != [] ==> Proper(vs[0]) && SafeChange(b, vs[0]) && SafeChanges(After(b, vs[0]), vs[1..])
  }

  predicate FixedRate(vs: seq<Event>) {
    forall v | v in vs :: !v.Retune?
  }

  /** Tokens taken plus tokens left never exceed tokens held plus tokens earned. */
  lemma {:induction false} Conservation(b: Bucket, vs: seq<Event>, from: real, to: real)
    requires Sound(b) && SafeChanges(b, vs) && b.lastUpdate <= from <= to && InOrder(from, vs)
    requires forall v | v in vs :: v.at <= to
    ensures Sound(AfterAll(b, vs))
    ensures AfterAll(b, vs).lastUpdate <= if vs == [] then from else vs[|vs| - 1].at
    ensures Taken(b, vs) + Available(AfterAll(b, vs), to) <= Available(b, from) + InForce(b, vs, from, to)
    decreases |vs|
  {
    if vs == [] {
      Accrues(b, from, to);
    } else {
      var v, rest := vs[0], vs[1..];
      assert v in vs && v.at <= to;
      Accrues(b, from, v.at);
      OneEvent(b, v);
      assert forall w | w in rest :: w in vs;
      Conservation(After(b, v), rest, v.at, to);
      assert rest != [] ==> rest[|rest| - 1] == vs[|vs| - 1];
      TakenFirst(b, vs);
    }
  }

  /** At a fixed rate, changes are no concern, the row stays within its size, and what is earned is linear. */
  lemma {:induction false} FixedRateRuns(b: Bucket, vs: seq<Event>, from: real, to: real)
    requires Valid(b) && FixedRate(vs) && b.lastUpdate <= from <= to && InOrder(from, vs)
    requires forall v | v in vs :: v.at <= to
    ensures SafeChanges(b, vs) && Valid(AfterAll(b, vs))
    ensures AfterAll(b, vs).refillRate == b.refillRate && AfterAll(b, vs).maxTokens == b.maxTokens
    ensures InForce(b, vs, from, to) == Earned(b.refillRate, from, to)
    decreases |vs|
  {
    if vs != [] {
      var v, rest := vs[0], vs[1..];
      assert v in vs && v.at <= to && forall w | w in rest :: w in vs;
      OneEvent(b, v);
      FixedRateRuns(After(b, v), rest, v.at, to);
      EarningsAdd(b.refillRate, from, v.at, to);
      TakenFirst(b, vs);
    }
  }

  lemma TakenFirst(b: Bucket, vs: seq<Event>)
    requires vs != []
    ensures Taken(b, vs) == (if Grants(b, vs[0]) then vs[0].count as real else 0.0) + Taken(After(b, vs[0]), vs[1..])
    ensures AfterAll(b, vs) == AfterAll(After(b, vs[0]), vs[1..])
  {
  }

  lemma {:induction false} AfterAllInParts(b: Bucket, us: seq<Event>, vs: seq<Event>, from: real)
    requires InOrder(from, us + vs)
    ensures AfterAll(b, us + vs) == AfterAll(AfterAll(b, us), vs)
    ensures InOrder(from, us)
    ensures InOrder(if us == [] then from else us[|us| - 1].at, vs)
    decreases |us|
  {
    if us == [] {
      assert us + vs == vs;
    } else {
      assert (us + vs)[1..] == us[1..] + vs;
      AfterAllInParts(After(b, us[0]), us[1..], vs, us[0].at);
    }
  }

  lemma {:induction false} OrderedFrom(from: real, vs: seq<Event>)
    requires InOrder(from, vs)
    ensures forall v | v in vs :: from <= v.at
    decreases |vs|
  {
    if vs != [] {
      OrderedFrom(vs[0].at, vs[1..]);
    }
  }

  lemma {:induction false} OrderedUpTo(from: real, vs: seq<Event>)
    requires InOrder(from, vs)
    ensures forall v | v in vs :: v.at <= vs[|vs| - 1].at
    decreases |vs|
  {
    if |vs| > 1 {
      OrderedUpTo(vs[0].at, vs[1..]);
      OrderedFrom(vs[0].at, vs[1..]);
      assert vs[|vs| - 1] in vs[1..];
    }
  }

  /**
    The rate bound. Whatever came before, the tokens taken in any stretch of any run that lies
    within [a, z] are at most the bucket's size plus what the rate earns in that time.
   */
  lemma RateBound(rate: real, created: real, before: seq<Event>, during: seq<Event>, a: real, z: real)
    requires rate > 0.0 && InOrder(created, before + during) && FixedRate(before + during) && created <= a <= z
    requires forall v | v in before :: v.at <= a
    requires forall v | v in during :: a <= v.at <= z
    ensures var b := AfterAll(NewBucket(rate, created), before);
            Taken(b, during) <= Max(1.0, rate) + Earned(rate, a, z)
  {
    var b0 := NewBucket(rate, created);
    assert forall v | v in before || v in during :: v in before + during;
    AfterAllInParts(b0, before, during, created);
    FixedRateRuns(b0, before, created, a);
    Conservation(b0, before, created, a);
    var b := AfterAll(b0, before);
    assert b.lastUpdate <= a by {
      assert before != [] ==> before[|before| - 1] in before;
    }
    assert InOrder(a, during) by {
      assert during != [] ==> during[0] in during;
    }
    FixedRateRuns(b, during, a, z);
    TakenAtMost(b, during, a, z);
  }

  /** In the unit limits are given in: at `limit` a minute, a minute brings at most so many tokens and a full bucket. */
  lemma RateBoundPerMinute(limit: real, created: real, before: seq<Event>, during: seq<Event>, a: real)
    requires limit > 0.0 && created <= a
    requires InOrder(created, before + during) && FixedRate(before + during)
    requires forall v | v in before :: v.at <= a
    requires forall v | v in during :: a <= v.at <= a + 60.0
    ensures var b := AfterAll(NewBucket(TokensPerSecond(limit), created), before);
            Taken(b, during) <= limit + if limit >= 60.0 then limit / 60.0 else 1.0
  {
    var rate := limit / 60.0;
    RateBound(rate, created, before, during, a, a + 60.0);
    assert Earned(rate, a, a + 60.0) == 60.0 * rate == limit;
  }

  /** From its creation on, a bucket hands out one token plus what the rate earned: no opening burst. */
  lemma RateBoundSinceCreation(rate: real, created: real, vs: seq<Event>, z: real)
    requires rate > 0.0 && InOrder(created, vs) && FixedRate(vs) && created <= z
    requires forall v | v in vs :: v.at <= z
    ensures Taken(NewBucket(rate, created), vs) <= 1.0 + Earned(rate, created, z)
    ensures 0.0 <= AfterAll(NewBucket(rate, created), vs).tokens <= Max(1.0, rate)
  {
    FixedRateRuns(NewBucket(rate, created), vs, created, z);
    TakenAtMost(NewBucket(rate, created), vs, created, z);
  }

  lemma TakenAtMost(b: Bucket, vs: seq<Event>, a: real, z: real)
    requires Sound(b) && SafeChanges(b, vs) && b.lastUpdate <= a <= z && InOrder(a, vs)
    requires forall v | v in vs :: v.at <= z
    ensures Taken(b, vs) <= Available(b, a) + InForce(b, vs, a, z)
  {
    Conservation(b, vs, a, z);
    var end := AfterAll(b, vs);
    assert end.lastUpdate <= z by {
      assert vs != [] ==> vs[|vs| - 1] in vs;
    }
    Accrues(end, z, z);
  }

  /** With safe changes only: at most the size in force at the start plus what each rate earns in its time. */
  lemma RateBoundWithSafeChanges(b: Bucket, vs: seq<Event>, a: real, z: real)
    requires Sound(b) && SafeChanges(b, vs) && b.lastUpdate <= a <= z && InOrder(a, vs)
    requires forall v | v in vs :: v.at <= z
    ensures Taken(b, vs) <= b.maxTokens + InForce(b, vs, a, z)
  {
    TakenAtMost(b, vs, a, z);
  }

  /**
    With other changes that bound fails: a bucket of 10 is emptied, slowed down, and five seconds later
    sped up again, and is full at once. It hands out 20 where its size and its rates allow 10.5.
   */
  lemma RaisingTheRateBreaksTheBound()
    ensures var b := Bucket(10.0, 10.0, 10.0, 0.0);
            var vs := [Poll(0.0, 10)] + [Retune(0.0, 0.1), Retune(5.0, 10.0), Poll(5.0, 10)];
            && Valid(b) && InOrder(0.0, vs)
            && Taken(b, vs) == 20.0 && b.maxTokens + InForce(b, vs, 0.0, 5.0) == 10.5
  {
    var full, empty, slow := Bucket(10.0, 10.0, 10.0, 0.0), Bucket(0.0, 10.0, 10.0, 0.0), Bucket(0.0, 1.0, 0.1, 0.0);
    assert After(full, Poll(0.0, 10)) == empty && After(empty, Retune(0.0, 0.1)) == slow;
    assert After(slow, Retune(5.0, 10.0)) == empty && Earned(10.0, 0.0, 5.0) == 50.0 && Earned(0.1, 0.0, 5.0) == 0.5;
    Leading(empty, Poll(5.0, 10), [], 5.0, 5.0);
    assert [Poll(5.0, 10)] + [] == [Poll(5.0, 10)];
    Leading(slow, Retune(5.0, 10.0), [Poll(5.0, 10)], 0.0, 5.0);
    assert [Retune(5.0, 10.0)] + [Poll(5.0, 10)] == [Retune(5.0, 10.0), Poll(5.0, 10)];
    Leading(empty, Retune(0.0, 0.1), [Retune(5.0, 10.0), Poll(5.0, 10)], 0.0, 5.0);
    assert [Retune(0.0, 0.1)] + [Retune(5.0, 10.0), Poll(5.0, 10)]
        == [Retune(0.0, 0.1), Retune(5.0, 10.0), Poll(5.0, 10)];
    Leading(full, Poll(0.0, 10), [Retune(0.0, 0.1), Retune(5.0, 10.0), Poll(5.0, 10)], 0.0, 5.0);
  }

  lemma Leading(b: Bucket, v: Event, rest: seq<Event>, from: real, to: real)
    ensures AfterAll(b, [v] + rest) == AfterAll(After(b, v), rest)
    ensures Taken(b, [v] + rest) == (if Grants(b, v) then v.count as real else 0.0) + Taken(After(b, v), rest)
    ensures InForce(b, [v] + rest, from, to) == Earned(b.refillRate, from, v.at) + InForce(After(b, v), rest, v.at, to)
    ensures InOrder(from, [v] + rest) <==> from <= v.at && InOrder(v.at, rest)
  {
    assert ([v] + rest)[1..] == rest;
  }

  /** Whatever the changes, a run takes no more than the highest of its rates would have allowed. */
  lemma RateBoundAtHighestRate(b: Bucket, vs: seq<Event>, highest: real, a: real, z: real)
    requires Sound(b) && b.refillRate <= highest && b.tokens <= Max(1.0, highest)
    requires b.lastUpdate <= a <= z && InOrder(a, vs)
    requires forall v | v in vs :: v.at <= z && Proper(v) && (v.Retune? ==> v.rate <= highest)
    ensures Taken(b, vs) <= Max(1.0, highest) + Earned(highest, a, z)
  {
    TakenAtHighestRate(b, vs, highest, a, z);
    EarningsGrow(highest, a, z);
  }

  /** The bucket is never ahead of one that has had the highest rate all along. */
  lemma {:induction false} TakenAtHighestRate(b: Bucket, vs: seq<Event>, highest: real, from: real, to: real)
    requires Sound(b) && b.refillRate <= highest && b.tokens <= Max(1.0, highest)
    requires b.lastUpdate <= from <= to && InOrder(from, vs)
    requires forall v | v in vs :: v.at <= to && Proper(v) && (v.Retune? ==> v.rate <= highest)
    ensures Taken(b, vs) <= Available(Retuned(b, highest), from) + Earned(highest, from, to)
    ensures Taken(b, vs) >= 0.0
    decreases |vs|
  {
    Accrues(Retuned(b, highest), from, to);
    EarningsGrow(highest, from, to);
    if vs != [] {
      var v, rest := vs[0], vs[1..];
      assert v in vs && forall w | w in rest :: w in vs;
      Accrues(Retuned(b, highest), from, v.at);
      RatesCompare(b.refillRate, highest, b.lastUpdate, v.at);
      EarningsGrow(b.refillRate, b.lastUpdate, v.at);
      EarningsGrow(highest, v.at, v.at);
      TakenAtHighestRate(After(b, v), rest, highest, v.at, to);
      EarningsAdd(highest, from, v.at, to);
      TakenFirst(b, vs);
    }
  }

  /** Polls that are refused cost nothing: the bucket, and so every later answer, is what it would have been. */
  lemma {:induction false} RefusedPollsChangeNothing(b: Bucket, vs: seq<Event>)
    requires forall v | v in vs :: v.Poll? && Available(b, v.at) < v.count as real
    ensures AfterAll(b, vs) == b && Taken(b, vs) == 0.0
  {
    if vs != [] {
      assert vs[0] in vs;
      assert forall v | v in vs[1..] :: v in vs;
      RefusedPollsChangeNothing(b, vs[1..]);
    }
  }

  /** Calls shorter than the token interval add up: a refused sole consumer is served once 1 / rate has passed. */
  lemma CreditAccumulates(b: Bucket, vs: seq<Event>, t: real)
    requires Valid(b) && b.lastUpdate + 1.0 / b.refillRate <= t
    requires forall v | v in vs :: v.Poll? && Available(b, v.at) < v.count as real
    ensures Grants(AfterAll(b, vs), Poll(t, 1))
  {
    RefusedPollsChangeNothing(b, vs);
    FullInterval(b, b.lastUpdate, 1.0 / b.refillRate);
    Accrues(b, b.lastUpdate + 1.0 / b.refillRate, t);
  }

  // ----- single tokens, by the times they are granted -----

  /** Attempts to take one token each, at these times. */
  function SinglePolls(times: seq<real>): seq<Event> {
    if times == [] then [] else [Poll(times[0], 1)] + SinglePolls(times[1..])
  }

  /** The times come in order, none before `from`, none after `to`. */
  predicate Ascending(from: real, times: seq<real>, to: real)
    decreases |times|
  {
    if times == [] then from <= to else from <= times[0] && Ascending(times[0], times[1..], to)
  }

  lemma {:induction false} AscendingBounds(from: real, times: seq<real>, to: real)
    requires Ascending(from, times, to)
    ensures from <= to
    ensures forall i | 0 <= i < |times| :: from <= times[i] <= to
    ensures forall i, k | 0 <= i < k < |times| :: times[i] <= times[k]
    decreases |times|
  {
    if times != [] {
      AscendingBounds(times[0], times[1..], to);
    }
  }

  /** When the granted attempts happen. */
  function GrantTimes(b: Bucket, times: seq<real>): seq<real>
    decreases |times|
  {
    if times == [] then []
    else (if Grants(b, Poll(times[0], 1)) then [times[0]] else []) + GrantTimes(After(b, Poll(times[0], 1)), times[1..])
  }

  function CountIn(times: seq<real>, a: real, z: real): nat {
    if times == [] then 0 else (if a <= times[0] <= z then 1 else 0) + CountIn(times[1..], a, z)
  }

  /** What the attempts leave of the bucket. */
  function AfterPolls(b: Bucket, times: seq<real>): Bucket {
    AfterAll(b, SinglePolls(times))
  }

  /** One more attempt at the end of a run. */
  lemma {:induction false} OneMorePoll(b: Bucket, times: seq<real>, t: real, from: real, to: real)
    requires Ascending(from, times, to) && to <= t
    ensures Ascending(from, times + [t], t)
    ensures AfterPolls(b, times + [t]) == After(AfterPolls(b, times), Poll(t, 1))
    ensures GrantTimes(b, times + [t])
            == GrantTimes(b, times) + if Grants(AfterPolls(b, times), Poll(t, 1)) then [t] else []
    decreases |times|
  {
    if times == [] {
      assert [] + [t] == [t] && [t][1..] == [];
      Leading(b, Poll(t, 1), [], t, t);
    } else {
      var v, rest := Poll(times[0], 1), times[1..];
      assert (times + [t])[1..] == rest + [t];
      OneMorePoll(After(b, v), rest, t, times[0], to);
      Leading(b, v, SinglePolls(rest), t, t);
      Leading(b, v, SinglePolls(rest + [t]), t, t);
      var first: seq<real> := if Grants(b, v) then [times[0]] else [];
      var last: seq<real> := if Grants(AfterPolls(b, times), Poll(t, 1)) then [t] else [];
      assert first + (GrantTimes(After(b, v), rest) + last) == (first + GrantTimes(After(b, v), rest)) + last;
    }
  }

  lemma {:induction false} NoGrantsBefore(b: Bucket, times: seq<real>, from: real, to: real, a: real, z: real)
    requires Ascending(from, times, to) && z < from
    ensures CountIn(GrantTimes(b, times), a, z) == 0
    decreases |times|
  {
    if times != [] {
      NoGrantsBefore(After(b, Poll(times[0], 1)), times[1..], times[0], to, a, z);
      GrantsOfFirst(b, times, a, z);
    }
  }

  lemma GrantsOfFirst(b: Bucket, times: seq<real>, a: real, z: real)
    requires times != []
    ensures CountIn(GrantTimes(b, times), a, z)
            == (if Grants(b, Poll(times[0], 1)) && a <= times[0] <= z then 1 else 0)
               + CountIn(GrantTimes(After(b, Poll(times[0], 1)), times[1..]), a, z)
  {
    var rest := GrantTimes(After(b, Poll(times[0], 1)), times[1..]);
    assert ([times[0]] + rest)[1..] == rest && [] + rest == rest;
  }

  /** Single tokens granted within any interval of a run, wherever it begins and ends. */
  lemma {:induction false} GrantsWithin(b: Bucket, times: seq<real>, from: real, to: real, a: real, z: real)
    requires Valid(b) && b.lastUpdate <= from && Ascending(from, times, to) && a <= z
    ensures CountIn(GrantTimes(b, times), a, z) as real <= b.maxTokens + Earned(b.refillRate, a, z)
    ensures a <= from <= z ==>
              CountIn(GrantTimes(b, times), a, z) as real <= Available(b, from) + Earned(b.refillRate, from, z)
    decreases |times|
  {
    EarningsGrow(b.refillRate, a, z);
    EarningsGrow(b.refillRate, b.lastUpdate, from);
    if a <= from <= z {
      EarningsGrow(b.refillRate, from, z);
    }
    if times != [] {
      var v := Poll(times[0], 1);
      OneEvent(b, v);
      GrantsOfFirst(b, times, a, z);
      if v.at > z {
        NoGrantsBefore(After(b, v), times[1..], v.at, to, a, z);
      } else {
        GrantsWithin(After(b, v), times[1..], v.at, to, a, z);
        if a <= v.at {
          EarningsAdd(b.refillRate, a, v.at, z);
        }
        if a <= from {
          EarningsAdd(b.refillRate, from, v.at, z);
          Accrues(b, from, v.at);
        }
      }
    }
  }

  // ----- the database-backed limiter -----

  /** A clock that only sleeping advances. */
  class Clock {
    var now: real

    constructor (start: real)
      ensures now == start
    {
      now := start;
    }

    method Sleep(seconds: real)
      requires seconds >= 0.0
      modifies this
      ensures now == old(now) + seconds
    {
      now := now + seconds;
    }
  }

  class RateLimiter {
    var rows: map<string, Bucket>
    const clock: Clock
    const defaultRate: real

    constructor (clock: Clock, defaultRate: real)
      ensures rows == map[] && this.clock == clock && this.defaultRate == defaultRate
    {
      rows, this.clock, this.defaultRate := map[], clock, defaultRate;
    }

    function RateOf(rateLimit: Option<real>): real {
      if rateLimit.Some? then rateLimit.value else defaultRate
    }

    /** The row a call works on: created on first use, retuned when the rate differs, without a refill. */
    function Row(name: string, rateLimit: Option<real>): Bucket
      reads this, clock
    {
      var rate := TokensPerSecond(RateOf(rateLimit));
      if name !in rows then NewBucket(rate, clock.now)
      else if rows[name].refillRate != rate then Retuned(rows[name], rate)
      else rows[name]
    }

    method GetOrCreateState(name: string, rateLimit: real) returns (state: Bucket)
      modifies this
      ensures state == old(Row(name, Some(rateLimit)))
      ensures rows == old(rows)[name := state]
      ensures state.refillRate == rateLimit / 60.0
      ensures name !in old(rows) ==>
                && state.tokens == 1.0 && state.lastUpdate == clock.now
                && state.maxTokens == if rateLimit >= 60.0 then rateLimit / 60.0 else 1.0
      ensures name in old(rows) ==>
                && state.tokens == old(rows)[name].tokens && state.lastUpdate == old(rows)[name].lastUpdate
                && state.maxTokens == (if old(rows)[name].refillRate == rateLimit / 60.0 then old(rows)[name].maxTokens
                                       else if rateLimit >= 60.0 then rateLimit / 60.0 else 1.0)
    {
      var rate := TokensPerSecond(rateLimit);
      if name !in rows {
        rows := rows[name := Bucket(1.0, Max(1.0, rate), rate, clock.now)];
      } else if rows[name].refillRate != rate {
        rows := rows[name := rows[name].(refillRate := rate, maxTokens := Max(1.0, rate))];
      }
      state := rows[name];
    }

    /** One call of the only session on this bucket is one event of it; a refusal rolls back. */
    method ConsumeTokens(name: string, count: nat, rateLimit: Option<real>) returns (granted: bool)
      modifies this
      ensures var b, v := old(Row(name, rateLimit)), Poll(clock.now, count);
              && granted == Grants(b, v)
              && rows == old(rows)[name := After(b, v)]
    {
      var effective := if rateLimit.Some? then rateLimit.value else defaultRate;
      var state := GetOrCreateState(name, effective);
      var newTokens := state.tokens + Earned(state.refillRate, state.lastUpdate, clock.now);
      if newTokens > state.maxTokens {
        newTokens := state.maxTokens;
      }
      if newTokens >= count as real {
        rows := rows[name := state.(tokens := newTokens - count as real, lastUpdate := clock.now)];
        return true;
      }
      granted := false;
    }

    /** Stores the refilled amount, without a lock. */
    method CanDispatch(name: string, count: nat, rateLimit: Option<real>) returns (enough: bool)
      modifies this
      ensures var b := old(Row(name, rateLimit));
              && enough == Grants(b, Poll(clock.now, count))
              && rows == old(rows)[name := After(b, Refill(clock.now))]
    {
      var effective := if rateLimit.Some? then rateLimit.value else defaultRate;
      var state := GetOrCreateState(name, effective);
      var newTokens := state.tokens + Earned(state.refillRate, state.lastUpdate, clock.now);
      if newTokens > state.maxTokens {
        newTokens := state.maxTokens;
      }
      rows := rows[name := state.(tokens := newTokens, lastUpdate := clock.now)];
      assert rows[name] == After(state, Refill(clock.now));
      enough := newTokens >= count as real;
    }

    /**
      Waits for one token, as the only consumer of this bucket. It polls at most twice: once now,
      and once after one token's time or when its own wait runs out, whichever comes first.
     */
    method AcquireToken(name: string, rateLimit: Option<real>, maxWait: real) returns (acquired: bool)
      requires RateOf(rateLimit) > 0.0
      requires name in rows ==> rows[name].lastUpdate <= clock.now && Valid(rows[name])
      modifies this, clock
      ensures var b, start := old(Row(name, rateLimit)), old(clock.now);
              var interval := 1.0 / TokensPerSecond(RateOf(rateLimit));
              var second := start + Min(interval, maxWait);
              && (acquired <==> Grants(b, Poll(start, 1)) || (maxWait > 0.0 && Grants(b, Poll(second, 1))))
              && (maxWait >= interval ==> acquired)
              && clock.now == (if Grants(b, Poll(start, 1)) || maxWait <= 0.0 then start else second)
              && rows == old(rows)[name := After(b, Poll(clock.now, 1))]
    {
      var start := clock.now;
      var effective := if rateLimit.Some? then rateLimit.value else defaultRate;
      var waitPerToken := 1.0 / TokensPerSecond(effective);
      ghost var b, rows0 := Row(name, rateLimit), rows;
      ghost var polls := 0;
      while true
        invariant polls <= 1
        invariant polls == 0 ==> clock.now == start && rows == rows0
        invariant polls == 1 ==>
                    && !Grants(b, Poll(start, 1)) && maxWait > 0.0
                    && clock.now == start + Min(waitPerToken, maxWait) && rows == rows0[name := b]
        decreases 2 - polls
      {
        var granted := ConsumeTokens(name, 1, rateLimit);
        if granted {
          return true;
        }
        if polls == 1 && waitPerToken <= maxWait {
          FullInterval(b, start, waitPerToken);
        }
        var elapsed := clock.now - start;
        if elapsed >= maxWait {
          return false;
        }
        polls := polls + 1;
        clock.Sleep(Min(waitPerToken, maxWait - elapsed));
      }
    }
  }

  lemma FullInterval(b: Bucket, start: real, interval: real)
    requires b.tokens >= 0.0 && b.lastUpdate <= start && b.refillRate > 0.0 && interval == 1.0 / b.refillRate
    requires b.maxTokens >= 1.0
    ensures Grants(b, Poll(start + interval, 1)) && interval > 0.0
  {
    EarningsAdd(b.refillRate, b.lastUpdate, start, start + interval);
    assert Earned(b.refillRate, start, start + interval) == interval * b.refillRate == 1.0;
  }
}
