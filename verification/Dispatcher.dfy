/**
  Sending batches of jobs to the topic: one token a job, asking before and after the wait for it
  whether to stop. Times are in seconds of the manager's clock.
 */
module Dispatcher {

  import RateLimiter

  /** What the producer makes of a message. */
  datatype SendResult = Acked | TooLarge | BrokerError

  /**
    The moments of one job's turn: the first question, the attempts at a token that its wait has room
    for, the second question, the send.
   */
  datatype Turn = Turn(askAt: real, polls: seq<real>, againAt: real, result: SendResult, sendAt: real)

  /** Whether renewing the lease at a moment works, and whether the execution is then still running. */
  datatype World = World(held: real -> bool, running: real -> bool)

  datatype Event = Token(at: real) | Send(at: real, job: string)

  /** Why a batch ended. */
  datatype Ending = Finished | AskedToStop | NoToken | StoppedAfterToken | Unsendable | BrokerDown

  /** The moments of a turn come in order, none before `from`. */
  predicate TurnInOrder(from: real, turn: Turn) {
    from <= turn.askAt && RateLimiter.Ascending(turn.askAt, turn.polls, turn.againAt) && turn.againAt <= turn.sendAt
  }

  /** So do those of a batch. */
  predicate InOrder(from: real, turns: seq<Turn>)
    decreases |turns|
  {
    turns != [] ==> TurnInOrder(from, turns[0]) && InOrder(turns[0].sendAt, turns[1..])
  }

  lemma {:induction false} NthTurnInOrder(from: real, turns: seq<Turn>, i: nat)
    requires InOrder(from, turns) && i < |turns|
    ensures TurnInOrder(if i == 0 then from else turns[i - 1].sendAt, turns[i]) && from <= turns[i].askAt
    decreases |turns|
  {
    if i > 0 {
      RateLimiter.AscendingBounds(turns[0].askAt, turns[0].polls, turns[0].againAt);
      NthTurnInOrder(turns[0].sendAt, turns[1..], i - 1);
    }
  }

  /** The jobs of completed turns whose send had a result. */
  function Selected(jobs: seq<string>, turns: seq<Turn>, n: nat, result: SendResult): seq<string>
    requires n <= |jobs| == |turns|
  {
    if n == 0 then []
    else if turns[n - 1].result == result then Selected(jobs, turns, n - 1, result) + [jobs[n - 1]]
    else Selected(jobs, turns, n - 1, result)
  }

  /** The token that a batch ending this way has spent without a message or a job given up. */
  function Burned(ending: Ending): nat {
    if ending.StoppedAfterToken? || ending.Unsendable? || ending.BrokerDown? then 1 else 0
  }

  /** When the tokens of a log were granted. */
  function TokenTimes(log: seq<Event>): seq<real> {
    if log == [] then []
    else
      var last := log[|log| - 1];
      TokenTimes(log[..|log| - 1]) + if last.Token? then [last.at] else []
  }

  /** The jobs of the messages in a log, in order. */
  function Sent(log: seq<Event>): seq<string> {
    if log == [] then []
    else
      var last := log[|log| - 1];
      Sent(log[..|log| - 1]) + if last.Send? then [last.job] else []
  }

  /** Every message comes right after a token of its own, and events come in order. */
  predicate Paced(log: seq<Event>) {
    log == [] || (
      var n := |log| - 1;
      && Paced(log[..n])
      && (log[n].Send? ==> n > 0 && log[n - 1].Token?)
      && (n > 0 ==> log[n - 1].at <= log[n].at))
  }

  /** A question answered with "go on" looked at the world at most a second before. */
  ghost predicate LookedRecently(world: World, at: real) {
    exists c: real :: at - 1.0 < c <= at && Looked(world, c)
  }

  ghost predicate Looked(world: World, c: real) {
    world.held(c) && world.running(c)
  }

  /** A look at most a second before found the lease lost or the execution not running. */
  ghost predicate RefusedRecently(world: World, at: real) {
    exists c: real :: at - 1.0 < c <= at && !Looked(world, c)
  }

  predicate Finds(bucket: RateLimiter.Bucket, poll: real) {
    RateLimiter.Available(bucket, poll) >= 1.0
  }

  /** No poll at these times finds a whole token in the bucket. */
  predicate NoneIn(bucket: RateLimiter.Bucket, polls: seq<real>) {
    forall i | 0 <= i < |polls| :: !Finds(bucket, polls[i])
  }

  /** As tokens only accrue, polls find none exactly if none is held by the time of the last. */
  lemma WhenNoPollFinds(bucket: RateLimiter.Bucket, from: real, polls: seq<real>, to: real)
    requires RateLimiter.Valid(bucket) && bucket.lastUpdate <= from && RateLimiter.Ascending(from, polls, to)
    ensures NoneIn(bucket, polls) <==>
              polls == [] || bucket.tokens + (polls[|polls| - 1] - bucket.lastUpdate) * bucket.refillRate < 1.0
  {
    RateLimiter.AscendingBounds(from, polls, to);
    if polls != [] {
      var last := polls[|polls| - 1];
      RateLimiter.PollIs(bucket, last, 1);
      forall i | 0 <= i < |polls|
        ensures Finds(bucket, polls[i]) ==> Finds(bucket, last)
      {
        RateLimiter.Accrues(bucket, polls[i], last);
      }
    }
  }

  /** What happened from `since` on: the polls of the bucket that began as `first`, and the log up to `now`. */
  datatype History = History(first: RateLimiter.Bucket, since: real, polls: seq<real>, lastPoll: real, now: real)

  /** The bucket is what the polls made of it, and the tokens in the log are those they were granted. */
  ghost predicate Linked(h: History, bucket: RateLimiter.Bucket, log: seq<Event>) {
    && RateLimiter.Valid(h.first) && h.first.lastUpdate <= h.since
    && RateLimiter.Ascending(h.since, h.polls, h.lastPoll) && h.lastPoll <= h.now
    && bucket == RateLimiter.AfterPolls(h.first, h.polls)
    && TokenTimes(log) == RateLimiter.GrantTimes(h.first, h.polls)
    && Paced(log) && (log != [] ==> log[|log| - 1].at <= h.now)
  }

  function Polled(h: History, at: real): History {
    h.(polls := h.polls + [at], lastPoll := at, now := at)
  }

  lemma LinkPoll(h: History, bucket: RateLimiter.Bucket, log: seq<Event>, at: real)
    requires Linked(h, bucket, log) && h.now <= at
    ensures var v := RateLimiter.Poll(at, 1);
            Linked(Polled(h, at), RateLimiter.After(bucket, v),
                   if RateLimiter.Grants(bucket, v) then log + [Token(at)] else log)
  {
    var v := RateLimiter.Poll(at, 1);
    RateLimiter.OneMorePoll(h.first, h.polls, at, h.since, h.lastPoll);
    if RateLimiter.Grants(bucket, v) {
      OneMoreEvent(log, Token(at));
    } else {
      assert TokenTimes(log) + [] == TokenTimes(log);
    }
  }

  lemma LinkSend(h: History, bucket: RateLimiter.Bucket, log: seq<Event>, at: real, job: string)
    requires Linked(h, bucket, log) && h.now <= at && log != [] && log[|log| - 1].Token?
    ensures Linked(h.(now := at), bucket, log + [Send(at, job)])
  {
    OneMoreEvent(log, Send(at, job));
  }

  lemma OneMoreEvent(log: seq<Event>, e: Event)
    requires Paced(log) && (log != [] ==> log[|log| - 1].at <= e.at)
    requires e.Send? ==> log != [] && log[|log| - 1].Token?
    ensures Paced(log + [e])
    ensures TokenTimes(log + [e]) == if e.Token? then TokenTimes(log) + [e.at] else TokenTimes(log)
    ensures Sent(log + [e]) == if e.Send? then Sent(log) + [e.job] else Sent(log)
  {
    assert (log + [e])[..|log|] == log;
  }

  /** What a turn adds to the log: a message with a token of its own, a token only, or nothing. */
  predicate Turned(before: seq<Event>, log: seq<Event>, job: string, turn: Turn, ending: Ending) {
    && Sent(log) == (if ending.Finished? && turn.result.Acked? then Sent(before) + [job] else Sent(before))
    && |TokenTimes(log)| == |TokenTimes(before)| + if ending.Finished? then 1 else Burned(ending)
  }

  /** What a batch has added to the log: a message for each job sent, and tokens for those and the jobs given up. */
  predicate Booked(before: seq<Event>, log: seq<Event>, marked: seq<string>, failed: seq<string>, burned: nat) {
    && Sent(log) == Sent(before) + marked
    && |TokenTimes(log)| == |TokenTimes(before)| + |marked| + |failed| + burned
  }

  lemma BookTurn(
      before: seq<Event>, log: seq<Event>, marked: seq<string>, failed: seq<string>, after: seq<Event>,
      job: string, turn: Turn, ending: Ending)
    requires Booked(before, log, marked, failed, 0) && Turned(log, after, job, turn, ending)
    ensures if ending.Finished? && turn.result.Acked? then Booked(before, after, marked + [job], failed, 0)
            else if ending.Finished? then Booked(before, after, marked, failed + [job], 0)
            else Booked(before, after, marked, failed, Burned(ending))
  {
    Pushed(Sent(before), marked, job);
  }

  /** The dispatcher and its callbacks, over the batches of one dispatch loop. */
  class SendLoop {
    const world: World
    const chunkSeconds: real
    /** The bucket's row. */
    var bucket: RateLimiter.Bucket
    /** When the current batch began, and what its last look at the world said. */
    var started: real
    var lastCheck: real
    var stop: bool
    var log: seq<Event>
    ghost var history: History

    ghost predicate Valid()
      reads this
    {
      && ((lastCheck == 0.0 && !stop) || stop == !Looked(world, lastCheck))
      && Linked(history, bucket, log)
    }

    constructor (world: World, chunkSeconds: real, bucket: RateLimiter.Bucket, now: real)
      requires RateLimiter.Valid(bucket) && bucket.lastUpdate <= now
      ensures Valid() && log == [] && history == History(bucket, now, [], now, now)
    {
      this.world, this.chunkSeconds, this.bucket := world, chunkSeconds, bucket;
      started, lastCheck, stop := now, 0.0, false;
      log, history := [], History(bucket, now, [], now, now);
    }

    /**
      Whether to stop: the chunk is over (unless a token is already spent), or the lease is lost or
      the execution no longer running, as of a look at most a second old.
     */
    method ShouldStop(at: real, chunk: bool) returns (answer: bool)
      requires Valid() && at >= 1.0 && lastCheck <= at
      modifies this`lastCheck, this`stop
      ensures Valid() && lastCheck <= at
      ensures chunk && at - started >= chunkSeconds ==> answer
      ensures !answer ==> LookedRecently(world, at)
      ensures !answer ==> exists c: real :: at - 1.0 < c <= at && world.held(c) && world.running(c)
      ensures answer ==> (chunk && at - started >= chunkSeconds) || RefusedRecently(world, at)
    {
      if chunk && at - started >= chunkSeconds {
        return true;
      }
      if at - lastCheck >= 1.0 {
        lastCheck := at;
        stop := !(world.held(at) && world.running(at));
      }
      answer := stop;
      assert at - 1.0 < lastCheck <= at && (answer <==> !Looked(world, lastCheck));
      assert !answer ==> world.held(lastCheck) && world.running(lastCheck);
    }

    /** One attempt at a token. */
    method PollOnce(at: real) returns (granted: bool)
      requires Valid() && history.now <= at
      modifies this`bucket, this`log, this`history
      ensures Valid() && history == Polled(old(history), at)
      ensures granted <==> RateLimiter.Available(old(bucket), at) >= 1.0
      ensures !granted ==> bucket == old(bucket) && log == old(log)
      ensures granted ==>
                && log == old(log) + [Token(at)] && Sent(log) == old(Sent(log))
                && |TokenTimes(log)| == |old(TokenTimes(log))| + 1
    {
      var poll := RateLimiter.Poll(at, 1);
      LinkPoll(history, bucket, log, at);
      granted := RateLimiter.Grants(bucket, poll);
      bucket := RateLimiter.After(bucket, poll);
      history := Polled(history, at);
      if granted {
        OneMore(log, Token(at));
        log := log + [Token(at)];
      }
    }

    /** Attempts at one token, until one is granted or the wait is over. */
    method AcquireToken(from: real, times: seq<real>, ghost to: real) returns (granted: bool, ghost at: real)
      requires Valid() && history.now <= from && RateLimiter.Ascending(from, times, to)
      modifies this`bucket, this`log, this`history
      ensures Valid() && history.now <= to
      ensures history.first == old(history.first) && history.since == old(history.since)
      ensures log == if granted then old(log) + [Token(at)] else old(log)
      ensures Sent(log) == old(Sent(log)) && |TokenTimes(log)| == |old(TokenTimes(log))| + if granted then 1 else 0
      ensures granted <==> !NoneIn(old(bucket), times)
      ensures !granted ==> bucket == old(bucket)
    {
      RateLimiter.AscendingBounds(from, times, to);
      at := from;
      granted := false;
      for i := 0 to |times|
        invariant Valid() && log == old(log) && bucket == old(bucket) && !granted
        invariant forall k | 0 <= k < i :: !Finds(bucket, times[k])
        invariant history.now <= (if i == 0 then from else times[i - 1])
        invariant history.first == old(history.first) && history.since == old(history.since)
      {
        granted := PollOnce(times[i]);
        assert granted <==> Finds(old(bucket), times[i]);
        if granted {
          return true, times[i];
        }
      }
    }

    /** The part of a turn before its send: two questions and a token. The ending is Finished if it may send. */
    method Prepare(turn: Turn) returns (ending: Ending)
      requires Valid() && TurnInOrder(history.now, turn) && turn.askAt >= 1.0 && lastCheck <= turn.askAt
      modifies this`bucket, this`lastCheck, this`stop, this`log, this`history
      ensures Valid() && lastCheck <= turn.againAt && history.now <= turn.againAt
      ensures history.first == old(history.first) && history.since == old(history.since)
      ensures ending in {Finished, AskedToStop, NoToken, StoppedAfterToken} && EndedFor(started, bucket, turn, ending)
      ensures ending.Finished? ==>
                && LookedRecently(world, turn.askAt) && LookedRecently(world, turn.againAt)
                && turn.askAt - started < chunkSeconds && log != [] && log[|log| - 1].Token?
      ensures Sent(log) == old(Sent(log))
      ensures |TokenTimes(log)| == |old(TokenTimes(log))| + if ending.Finished? then 1 else Burned(ending)
    {
      RateLimiter.AscendingBounds(turn.askAt, turn.polls, turn.againAt);
      var stopNow := ShouldStop(turn.askAt, true);
      if stopNow {
        return AskedToStop;
      }
      var granted, _ := AcquireToken(turn.askAt, turn.polls, turn.againAt);
      if !granted {
        return NoToken;
      }
      stopNow := ShouldStop(turn.againAt, false);
      return if stopNow then StoppedAfterToken else Finished;
    }

    /** The broker has taken the message. */
    method Deliver(job: string, at: real)
      requires Valid() && history.now <= at && log != [] && log[|log| - 1].Token?
      modifies this`log, this`history
      ensures Valid() && history == old(history).(now := at) && log == old(log) + [Send(at, job)]
      ensures Sent(log) == old(Sent(log)) + [job] && TokenTimes(log) == old(TokenTimes(log))
    {
      LinkSend(history, bucket, log, at, job);
      OneMore(log, Send(at, job));
      log := log + [Send(at, job)];
      history := history.(now := at);
    }

    /** One turn; it ends the batch unless the ending is Finished. */
    method TakeTurn(job: string, turn: Turn, handlesUnsendable: bool) returns (ending: Ending)
      requires Valid() && TurnInOrder(history.now, turn) && turn.askAt >= 1.0 && lastCheck <= turn.askAt
      modifies this`bucket, this`lastCheck, this`stop, this`log, this`history
      ensures Valid() && lastCheck <= turn.sendAt && history.now <= turn.sendAt
      ensures history.first == old(history.first) && history.since == old(history.since)
      ensures ending.Finished? ==> WentThrough(started, turn, handlesUnsendable)
      ensures EndedFor(started, bucket, turn, ending) && (ending.Unsendable? ==> !handlesUnsendable)
      ensures Turned(old(log), log, job, turn, ending)
    {
      ending := Prepare(turn);
      if !ending.Finished? {
        return;
      }
      match turn.result {
        case Acked =>
          Deliver(job, turn.sendAt);
        case TooLarge =>
          ending := if handlesUnsendable then Finished else Unsendable;
        case BrokerError =>
          ending := BrokerDown;
      }
    }

    /** Why a turn of a batch that began at `from` ended it, with the bucket as the turn left it. */
    ghost predicate EndedFor(from: real, bucket: RateLimiter.Bucket, turn: Turn, ending: Ending) {
      match ending
      case Finished => true
      case AskedToStop => turn.askAt - from >= chunkSeconds || RefusedRecently(world, turn.askAt)
      case NoToken => NoneIn(bucket, turn.polls)
      case StoppedAfterToken => RefusedRecently(world, turn.againAt)
      case Unsendable => turn.result.TooLarge?
      case BrokerDown => turn.result.BrokerError?
    }

    /** A turn of a batch that began at `from` and that the turn did not end. */
    ghost predicate WentThrough(from: real, turn: Turn, handlesUnsendable: bool) {
      && !turn.result.BrokerError? && (turn.result.TooLarge? ==> handlesUnsendable)
      && LookedRecently(world, turn.askAt) && LookedRecently(world, turn.againAt)
      && turn.askAt - from < chunkSeconds
    }

    ghost predicate AllWentThrough(from: real, turns: seq<Turn>, handlesUnsendable: bool) {
      turns == [] || (
        var n := |turns| - 1;
        AllWentThrough(from, turns[..n], handlesUnsendable) && WentThrough(from, turns[n], handlesUnsendable))
    }

    /** Of a turn that went through, a message is sent with a look at the world at most a second old. */
    lemma {:induction false} EachLookedFirst(from: real, turns: seq<Turn>, handlesUnsendable: bool, i: nat)
      requires AllWentThrough(from, turns, handlesUnsendable) && i < |turns|
      ensures LookedRecently(world, turns[i].askAt) && LookedRecently(world, turns[i].againAt)
      ensures turns[i].askAt - from < chunkSeconds
    {
      if i < |turns| - 1 {
        EachLookedFirst(from, turns[..|turns| - 1], handlesUnsendable, i);
      }
    }

    lemma OneMoreWent(from: real, turns: seq<Turn>, handlesUnsendable: bool, i: nat)
      requires i < |turns| && AllWentThrough(from, turns[..i], handlesUnsendable)
      requires WentThrough(from, turns[i], handlesUnsendable)
      ensures AllWentThrough(from, turns[..i + 1], handlesUnsendable)
    {
      assert turns[..i + 1][..i] == turns[..i];
    }

    /** Where a batch that began at `from` with the log `before` stands after `n` turns. */
    ghost predicate Underway(
        from: real, before: seq<Event>, jobs: seq<string>, turns: seq<Turn>, handlesUnsendable: bool, n: nat,
        marked: seq<string>, failed: seq<string>)
      requires n <= |jobs| == |turns|
      reads this
    {
      var moment := if n == 0 then from else turns[n - 1].sendAt;
      && Valid() && started == from && history.now <= moment && lastCheck <= moment
      && marked == Selected(jobs, turns, n, Acked) && failed == Selected(jobs, turns, n, TooLarge)
      && Booked(before, log, marked, failed, 0) && AllWentThrough(from, turns[..n], handlesUnsendable)
    }

    /** A batch asks afresh: no look at the world is carried over. */
    method Begin(from: real, ghost jobs: seq<string>, ghost turns: seq<Turn>, ghost handlesUnsendable: bool)
      requires Valid() && |turns| == |jobs| && from >= 1.0 && history.now <= from
      modifies this`started, this`lastCheck, this`stop, this`history
      ensures Underway(from, log, jobs, turns, handlesUnsendable, 0, [], [])
      ensures history.first == old(history.first) && history.since == old(history.since)
    {
      started, lastCheck, stop := from, 0.0, false;
      history := history.(now := from);
    }

    method NextTurn(
        from: real, ghost before: seq<Event>, jobs: seq<string>, turns: seq<Turn>, handlesUnsendable: bool, n: nat,
        marked: seq<string>, failed: seq<string>)
      returns (ending: Ending, nowMarked: seq<string>, nowFailed: seq<string>)
      requires n < |jobs| == |turns| && from >= 1.0 && InOrder(from, turns)
      requires Underway(from, before, jobs, turns, handlesUnsendable, n, marked, failed)
      modifies this
      ensures Valid() && started == from
      ensures history.first == old(history.first) && history.since == old(history.since)
      ensures ending.Finished? ==> Underway(from, before, jobs, turns, handlesUnsendable, n + 1, nowMarked, nowFailed)
      ensures !ending.Finished? ==>
                nowMarked == marked && nowFailed == failed && Booked(before, log, marked, failed, Burned(ending))
      ensures EndedFor(from, bucket, turns[n], ending) && (ending.Unsendable? ==> !handlesUnsendable)
    {
      NthTurnInOrder(from, turns, n);
      Delayed(history.now, if n == 0 then from else turns[n - 1].sendAt, turns[n]);
      ending := TakeTurn(jobs[n], turns[n], handlesUnsendable);
      BookTurn(before, old(log), marked, failed, log, jobs[n], turns[n], ending);
      nowMarked := if ending.Finished? && turns[n].result.Acked? then marked + [jobs[n]] else marked;
      nowFailed := if ending.Finished? && !turns[n].result.Acked? then failed + [jobs[n]] else failed;
      if ending.Finished? {
        OneMoreWent(from, turns, handlesUnsendable, n);
      }
    }

    /**
      A batch. Jobs go out in order, up to the turn that ends it; every message and every job given
      up had a token, at most one more token is spent without either, and each message that was sent
      had the lease and a running execution at most a second before. `marked` are the jobs to record as
      dispatched, `failed` those to fail because their message can never be sent. A batch ends early
      only if its chunk is over, a look of the last second failed, no poll of the turn finds a token, or
      the message cannot be sent.
     */
    method DispatchBatch(from: real, jobs: seq<string>, turns: seq<Turn>, handlesUnsendable: bool)
      returns (marked: seq<string>, failed: seq<string>, ending: Ending, ghost end: nat)
      requires Valid() && |turns| == |jobs| && from >= 1.0 && history.now <= from && InOrder(from, turns)
      modifies this
      ensures Valid() && history.first == old(history.first) && history.since == old(history.since)
      ensures started == from && end <= |jobs| && (ending.Finished? <==> end == |jobs|)
      ensures marked == Selected(jobs, turns, end, Acked) && failed == Selected(jobs, turns, end, TooLarge)
      ensures Booked(old(log), log, marked, failed, Burned(ending))
      ensures AllWentThrough(from, turns[..end], handlesUnsendable)
      ensures end < |jobs| ==>
                EndedFor(from, bucket, turns[end], ending) && (ending.Unsendable? ==> !handlesUnsendable)
    {
      Begin(from, jobs, turns, handlesUnsendable);
      marked, failed, ending, end := [], [], Finished, 0;
      for i := 0 to |jobs|
        invariant Underway(from, old(log), jobs, turns, handlesUnsendable, i, marked, failed)
        invariant end == i && ending.Finished?
        invariant history.first == old(history.first) && history.since == old(history.since)
      {
        ending, marked, failed := NextTurn(from, old(log), jobs, turns, handlesUnsendable, i, marked, failed);
        if !ending.Finished? {
          return;
        }
        end := i + 1;
      }
    }

    /**
      The rate limit, in messages: within any interval, over any number of batches, at most the
      bucket's size plus what the rate earns go out, and one.
     */
    lemma MessagesWithinRate(a: real, z: real)
      requires Valid() && a <= z
      ensures SendsIn(log, a, z) as real
              <= history.first.maxTokens + RateLimiter.Earned(history.first.refillRate, a, z) + 1.0
    {
      SendsFollowTokens(log, a, z);
      TokensAreTimes(log, a, z);
      RateLimiter.GrantsWithin(history.first, history.polls, history.since, history.lastPoll, a, z);
    }
  }

  lemma OneMore(log: seq<Event>, e: Event)
    ensures TokenTimes(log + [e]) == if e.Token? then TokenTimes(log) + [e.at] else TokenTimes(log)
    ensures Sent(log + [e]) == if e.Send? then Sent(log) + [e.job] else Sent(log)
  {
    assert (log + [e])[..|log|] == log;
  }

  lemma Pushed<T>(a: seq<T>, b: seq<T>, x: T)
    ensures a + (b + [x]) == (a + b) + [x]
  {
  }

  lemma Delayed(earlier: real, from: real, turn: Turn)
    requires earlier <= from && TurnInOrder(from, turn)
    ensures TurnInOrder(earlier, turn)
  {
  }

  // ----- messages are paced by tokens -----

  function TokensIn(log: seq<Event>, a: real, z: real): nat {
    if log == [] then 0
    else
      var last := log[|log| - 1];
      TokensIn(log[..|log| - 1], a, z) + if last.Token? && a <= last.at <= z then 1 else 0
  }

  function SendsIn(log: seq<Event>, a: real, z: real): nat {
    if log == [] then 0
    else
      var last := log[|log| - 1];
      SendsIn(log[..|log| - 1], a, z) + if last.Send? && a <= last.at <= z then 1 else 0
  }

  lemma {:induction false} NothingBefore(log: seq<Event>, a: real, z: real)
    requires Paced(log) && (log != [] ==> log[|log| - 1].at < a)
    ensures TokensIn(log, a, z) == 0 && SendsIn(log, a, z) == 0
  {
    if log != [] {
      NothingBefore(log[..|log| - 1], a, z);
    }
  }

  /** In any stretch of time at most one message is sent on a token from before it. */
  lemma {:induction false} SendsFollowTokens(log: seq<Event>, a: real, z: real)
    requires Paced(log)
    ensures SendsIn(log, a, z) <= TokensIn(log, a, z) + 1
    ensures log != [] && log[|log| - 1].Token? && a <= log[|log| - 1].at <= z ==>
              SendsIn(log, a, z) <= TokensIn(log, a, z)
  {
    if log != [] {
      var n := |log| - 1;
      SendsFollowTokens(log[..n], a, z);
      if log[n].Send? && a <= log[n].at <= z {
        assert log[..n][n - 1] == log[n - 1];
        if log[n - 1].at < a {
          NothingBefore(log[..n], a, z);
        }
      }
    }
  }

  lemma {:induction false} TokensAreTimes(log: seq<Event>, a: real, z: real)
    ensures TokensIn(log, a, z) == RateLimiter.CountIn(TokenTimes(log), a, z)
  {
    if log != [] {
      var n := |log| - 1;
      TokensAreTimes(log[..n], a, z);
      if log[n].Token? {
        CountPush(TokenTimes(log[..n]), log[n].at, a, z);
      } else {
        assert TokenTimes(log[..n]) + [] == TokenTimes(log[..n]);
      }
    }
  }

  lemma {:induction false} CountPush(times: seq<real>, t: real, a: real, z: real)
    ensures RateLimiter.CountIn(times + [t], a, z) == RateLimiter.CountIn(times, a, z) + if a <= t <= z then 1 else 0
    decreases |times|
  {
    if times == [] {
      assert [] + [t] == [t] && [t][1..] == [];
    } else {
      assert (times + [t])[1..] == times[1..] + [t];
      CountPush(times[1..], t, a, z);
    }
  }
}
