/**
  What a per-record step reports: the records it kept, and why it skipped others, in a bounded table.
 */
module RecordResults {

  import opened Wrappers
  import opened MapFacts
  import opened SetFacts

  const MAX_SKIP_REASONS := 20
  const MAX_SKIP_REASON_LENGTH := 200
  const OTHER_SKIP_REASON := "(other reasons)"

  /** What the call for one record came to: a record, nothing, or a skip with its reason. */
  datatype Reply<V> = Record(value: V) | Nothing | Skipped(reason: string)

  // ----- counting skip reasons -----

  type Counts = map<string, nat>

  function Trimmed(reason: string): string {
    var cut := if |reason| > MAX_SKIP_REASON_LENGTH then reason[..MAX_SKIP_REASON_LENGTH] else reason;
    if cut == "" then "(no reason)" else cut
  }

  /** A reason of usual length is its own key; a longer one is cut to 200 characters, and an empty one named. */
  lemma TrimmedIs(reason: string)
    ensures 1 <= |reason| <= 200 ==> Trimmed(reason) == reason
    ensures |reason| > 200 ==> |Trimmed(reason)| == 200 && Trimmed(reason) <= reason
    ensures reason == "" ==> Trimmed(reason) == "(no reason)"
    ensures 1 <= |Trimmed(reason)| <= 200
  {
  }

  function KeyFor(counts: Counts, reason: string): string {
    if Trimmed(reason) !in counts && |counts| >= MAX_SKIP_REASONS then OTHER_SKIP_REASON else Trimmed(reason)
  }

  function Counted(counts: Counts, reason: string, times: nat): Counts {
    var key := KeyFor(counts, reason);
    counts[key := (if key in counts then counts[key] else 0) + times]
  }

  function Tally(reasons: seq<string>): Counts {
    if reasons == [] then map[]
    else Counted(Tally(reasons[..|reasons| - 1]), reasons[|reasons| - 1], 1)
  }

  class SkipReasons {
    var counts: Counts

    constructor ()
      ensures counts == Tally([])
    {
      counts := map[];
    }

    method Count(reason: string, times: nat)
      modifies this
      ensures counts == Counted(old(counts), reason, times)
      ensures var own := if reason == "" then "(no reason)" else if |reason| > 200 then reason[..200] else reason;
              var key := if own in old(counts) || |old(counts)| < 20 then own else "(other reasons)";
              && counts.Keys == old(counts).Keys + {key}
              && counts[key] == times + (if key in old(counts) then old(counts)[key] else 0)
              && forall other | other in old(counts) && other != key :: counts[other] == old(counts)[other]
    {
      var key := if |reason| > MAX_SKIP_REASON_LENGTH then reason[..MAX_SKIP_REASON_LENGTH] else reason;
      if key == "" {
        key := "(no reason)";
      }
      if key !in counts && |counts| >= MAX_SKIP_REASONS {
        key := OTHER_SKIP_REASON;
      }
      counts := counts[key := (if key in counts then counts[key] else 0) + times];
    }
  }

  /** How often a reason occurs, once trimmed. */
  function Occurrences(reasons: seq<string>, key: string): nat {
    if reasons == [] then 0
    else Occurrences(reasons[..|reasons| - 1], key) + if Trimmed(reasons[|reasons| - 1]) == key then 1 else 0
  }

  lemma OneMoreKey(before: Counts, reason: string)
    ensures var key, after := KeyFor(before, reason), Counted(before, reason, 1);
            && after.Keys == before.Keys + {key} && |before| <= |after|
            && (|before.Keys - {OTHER_SKIP_REASON}| <= MAX_SKIP_REASONS ==>
                  |after.Keys - {OTHER_SKIP_REASON}| <= MAX_SKIP_REASONS)
  {
  }

  /** The counts add up to the skips. */
  lemma {:induction false} TallyAddsUp(reasons: seq<string>)
    ensures Sum(Tally(reasons)) == |reasons|
  {
    if reasons != [] {
      TallyAddsUp(reasons[..|reasons| - 1]);
      var before := Tally(reasons[..|reasons| - 1]);
      var key := KeyFor(before, reasons[|reasons| - 1]);
      SumUpdate(before, key, (if key in before then before[key] else 0) + 1);
    }
  }

  /** The table is bounded. */
  lemma {:induction false} TallyIsBounded(reasons: seq<string>)
    ensures |Tally(reasons).Keys - {OTHER_SKIP_REASON}| <= MAX_SKIP_REASONS
    ensures |Tally(reasons)| <= MAX_SKIP_REASONS + 1 == 21
  {
    var counts := Tally(reasons);
    if reasons != [] {
      TallyIsBounded(reasons[..|reasons| - 1]);
      OneMoreKey(Tally(reasons[..|reasons| - 1]), reasons[|reasons| - 1]);
    }
    SubsetSize(counts.Keys, counts.Keys - {OTHER_SKIP_REASON} + {OTHER_SKIP_REASON});
  }

  /**
    The table is exact: a reason with a key of its own (the catch-all aside) has all its skips under
    it. Only when the table is full can a reason be without a key.
   */
  lemma {:induction false} TallyIsExact(reasons: seq<string>, key: string)
    ensures key in Tally(reasons) && key != OTHER_SKIP_REASON ==>
              Tally(reasons)[key] == Occurrences(reasons, key) && Occurrences(reasons, key) > 0
    ensures key !in Tally(reasons) && Occurrences(reasons, key) > 0 ==> |Tally(reasons)| >= MAX_SKIP_REASONS
  {
    if reasons != [] {
      TallyIsExact(reasons[..|reasons| - 1], key);
      OneMoreKey(Tally(reasons[..|reasons| - 1]), reasons[|reasons| - 1]);
    }
  }

  // ----- collecting the replies -----

  /** The kept records; a slot without a reply and a reply of nothing are both dropped. */
  function Kept<V>(slots: seq<Option<Reply<V>>>): seq<V> {
    if slots == [] then []
    else
      var last := slots[|slots| - 1];
      Kept(slots[..|slots| - 1]) + if last.Some? && last.value.Record? then [last.value.value] else []
  }

  function Reasons<V>(slots: seq<Option<Reply<V>>>): seq<string> {
    if slots == [] then []
    else
      var last := slots[|slots| - 1];
      Reasons(slots[..|slots| - 1]) + if last.Some? && last.value.Skipped? then [last.value.reason] else []
  }

  function Dropped<V>(slots: seq<Option<Reply<V>>>): nat {
    if slots == [] then 0
    else
      var last := slots[|slots| - 1];
      Dropped(slots[..|slots| - 1]) + if last.None? || last.value.Nothing? then 1 else 0
  }

  /** What one more slot adds. */
  lemma OneMoreSlot<V>(slots: seq<Option<Reply<V>>>, i: nat)
    requires i < |slots|
    ensures var before, after, slot := slots[..i], slots[..i + 1], slots[i];
            if slot.Some? && slot.value.Skipped? then
              && Tally(Reasons(after)) == Counted(Tally(Reasons(before)), slot.value.reason, 1)
              && Kept(after) == Kept(before) && Dropped(after) == Dropped(before)
              && |Reasons(after)| == |Reasons(before)| + 1
            else
              && Reasons(after) == Reasons(before)
              && if slot.Some? && slot.value.Record?
                 then Kept(after) == Kept(before) + [slot.value.value] && Dropped(after) == Dropped(before)
                 else Kept(after) == Kept(before) && Dropped(after) == Dropped(before) + 1
  {
    assert slots[..i + 1][..i] == slots[..i];
    var before := Reasons(slots[..i]);
    if slots[i].Some? && slots[i].value.Skipped? {
      assert (before + [slots[i].value.reason])[..|before|] == before;
    }
  }

  method Collect<V>(slots: seq<Option<Reply<V>>>) returns (kept: seq<V>, skipReasons: Counts)
    ensures kept == Kept(slots) && skipReasons == Tally(Reasons(slots))
    ensures |kept| + Sum(skipReasons) + Dropped(slots) == |slots|
    ensures |skipReasons| <= MAX_SKIP_REASONS + 1
  {
    kept := [];
    var reasons := new SkipReasons();
    ghost var skips, drops := 0, 0;
    for i := 0 to |slots|
      invariant kept == Kept(slots[..i]) && reasons.counts == Tally(Reasons(slots[..i]))
      invariant skips == |Reasons(slots[..i])| && drops == Dropped(slots[..i]) && |kept| + skips + drops == i
    {
      OneMoreSlot(slots, i);
      if slots[i].Some? && slots[i].value.Skipped? {
        reasons.Count(slots[i].value.reason, 1);
        skips := skips + 1;
      } else if slots[i].Some? && slots[i].value.Record? {
        kept := kept + [slots[i].value.value];
      } else {
        drops := drops + 1;
      }
    }
    assert slots[..|slots|] == slots;
    TallyIsBounded(Reasons(slots));
    TallyAddsUp(Reasons(slots));
    skipReasons := reasons.counts;
  }

  /** The input positions of the kept records. */
  function KeptAt<V>(slots: seq<Option<Reply<V>>>): seq<nat> {
    if slots == [] then []
    else
      var i := |slots| - 1;
      KeptAt(slots[..i]) + if slots[i].Some? && slots[i].value.Record? then [i] else []
  }

  /** Kept records come in input order, one for each reply that is a record. */
  lemma {:induction false} KeptInOrder<V>(slots: seq<Option<Reply<V>>>)
    ensures var at := KeptAt(slots);
            && |at| == |Kept(slots)|
            && (forall j | 0 <= j < |at| :: at[j] < |slots| && slots[at[j]] == Some(Record(Kept(slots)[j])))
            && (forall j, k | 0 <= j < k < |at| :: at[j] < at[k])
            && (forall i | 0 <= i < |slots| && slots[i].Some? && slots[i].value.Record? :: i in at)
  {
    if slots != [] {
      KeptInOrder(slots[..|slots| - 1]);
    }
  }

  /** The input positions of the skips. */
  function SkippedAt<V>(slots: seq<Option<Reply<V>>>): seq<nat> {
    if slots == [] then []
    else
      var i := |slots| - 1;
      SkippedAt(slots[..i]) + if slots[i].Some? && slots[i].value.Skipped? then [i] else []
  }

  /** The reasons are those of the replies that are skips, in input order. */
  lemma {:induction false} ReasonsInOrder<V>(slots: seq<Option<Reply<V>>>)
    ensures var at := SkippedAt(slots);
            && |at| == |Reasons(slots)|
            && (forall j | 0 <= j < |at| :: at[j] < |slots| && slots[at[j]] == Some(Skipped(Reasons(slots)[j])))
            && (forall j, k | 0 <= j < k < |at| :: at[j] < at[k])
            && (forall i | 0 <= i < |slots| && slots[i].Some? && slots[i].value.Skipped? :: i in at)
  {
    if slots != [] {
      ReasonsInOrder(slots[..|slots| - 1]);
    }
  }
}
