/**
  Per-record deduplication: the ledger of record hashes, claiming and releasing in chunks, and the
  selection of the records a job sends.
 */
module ContentDedup {

  import opened JobTable

  /** A SHA-256 digest; equal identities give equal digests and different ones different digests. */
  type Hash = string

  type Ledger = map<Hash, JobId>

  // ----- what the statements do, on sets -----

  function Claimed(ledger: Ledger, hashes: set<Hash>, job: JobId): Ledger {
    map h | h in ledger.Keys + hashes :: if h in ledger then ledger[h] else job
  }

  function Owned(ledger: Ledger, hashes: set<Hash>, job: JobId): set<Hash> {
    set h | h in hashes && h in ledger && ledger[h] == job
  }

  function Released(ledger: Ledger, hashes: set<Hash>, job: JobId): Ledger {
    map h | h in ledger && !(h in hashes && ledger[h] == job) :: ledger[h]
  }

  function Elements(hashes: seq<Hash>): set<Hash> {
    set h | h in hashes
  }

  // ----- lists -----

  /** The list without its repeats, in first-seen order. */
  function Unique(hashes: seq<Hash>): (r: seq<Hash>)
    ensures Elements(r) == Elements(hashes)
    ensures forall i, k | 0 <= i < k < |r| :: r[i] != r[k]
  {
    if hashes == [] then []
    else
      var front, last := hashes[..|hashes| - 1], hashes[|hashes| - 1];
      assert hashes == front + [last];
      assert Elements(hashes) == Elements(front) + {last};
      assert last in Unique(front) <==> last in Elements(front);
      if last in Unique(front) then Unique(front) else Unique(front) + [last]
  }

  function Chunks(items: seq<Hash>, size: nat): (r: seq<seq<Hash>>)
    requires size >= 1
    ensures Flat(r) == items
    ensures forall i | 0 <= i < |r| :: 1 <= |r[i]| <= size && (i < |r| - 1 ==> |r[i]| == size)
  {
    if items == [] then []
    else if |items| <= size then
      assert [items][0] + Flat([items][1..]) == items;
      [items]
    else
      var rest := Chunks(items[size..], size);
      assert ([items[..size]] + rest)[1..] == rest;
      [items[..size]] + rest
  }

  function Flat(parts: seq<seq<Hash>>): seq<Hash> {
    if parts == [] then [] else parts[0] + Flat(parts[1..])
  }

  lemma {:induction false} FlatPush(parts: seq<seq<Hash>>, part: seq<Hash>)
    ensures Flat(parts + [part]) == Flat(parts) + part
    ensures Elements(Flat(parts + [part])) == Elements(Flat(parts)) + Elements(part)
  {
    if parts == [] {
      assert [part][1..] == [];
    } else {
      assert (parts + [part])[1..] == parts[1..] + [part];
      FlatPush(parts[1..], part);
    }
  }

  /** Claiming two sets one after the other is claiming their union. */
  lemma ClaimInTwo(ledger: Ledger, first: set<Hash>, second: set<Hash>, job: JobId)
    ensures var l1 := Claimed(ledger, first, job);
            var l2 := Claimed(l1, second, job);
            && l2 == Claimed(ledger, first + second, job)
            && Owned(l2, first + second, job)
               == Owned(l1, first, job) + (second - l1.Keys) + Owned(l2, second * l1.Keys, job)
  {
  }

  lemma ReleaseInTwo(ledger: Ledger, first: set<Hash>, second: set<Hash>, job: JobId)
    ensures Released(Released(ledger, first, job), second, job) == Released(ledger, first + second, job)
  {
  }

  /** The hashes at some positions of a list. */
  ghost function HashesAt(hashes: seq<Hash>, picks: seq<nat>): set<Hash>
    requires forall k | 0 <= k < |picks| :: picks[k] < |hashes|
  {
    set k | 0 <= k < |picks| :: hashes[picks[k]]
  }

  lemma PickOne(hashes: seq<Hash>, picks: seq<nat>, i: nat)
    requires i < |hashes| && forall k | 0 <= k < |picks| :: picks[k] < |hashes|
    ensures HashesAt(hashes, picks + [i]) == HashesAt(hashes, picks) + {hashes[i]}
  {
    var longer := picks + [i];
    forall h | h in HashesAt(hashes, picks) + {hashes[i]}
      ensures h in HashesAt(hashes, longer)
    {
      if h == hashes[i] {
        assert hashes[longer[|picks|]] == h;
      } else {
        var k :| 0 <= k < |picks| && hashes[picks[k]] == h;
        assert hashes[longer[k]] == h;
      }
    }
  }

  // ----- the ledger -----

  class RecordLedger {
    var owner: Ledger

    constructor ()
      ensures owner == map[]
    {
      owner := map[];
    }

    /** INSERT ... ON CONFLICT DO NOTHING RETURNING: the rows that were not there. */
    method InsertMissing(part: seq<Hash>, job: JobId) returns (inserted: set<Hash>)
      modifies this
      ensures owner == Claimed(old(owner), Elements(part), job)
      ensures inserted == Elements(part) - old(owner).Keys
      ensures forall h | h in part :: h in owner && (h !in old(owner) ==> h in inserted && owner[h] == job)
      ensures forall h | h in old(owner) :: h in owner && owner[h] == old(owner)[h]
      ensures forall h | h in owner :: h in old(owner) || h in part
    {
      inserted := set h | h in part && h !in owner;
      owner := map h | h in owner.Keys + inserted :: if h in owner then owner[h] else job;
    }

    /** One chunk: what was inserted, and of the rest what the job holds already. */
    method ClaimChunk(part: seq<Hash>, job: JobId) returns (mine: set<Hash>)
      modifies this
      ensures owner == Claimed(old(owner), Elements(part), job)
      ensures mine == (Elements(part) - old(owner).Keys) + Owned(owner, Elements(part) * old(owner).Keys, job)
      ensures forall h :: h in mine <==> h in part && (h in old(owner) ==> old(owner)[h] == job)
    {
      mine := InsertMissing(part, job);
      var own := set h | h in part && h !in mine && h in owner && owner[h] == job;
      mine := mine + own;
    }

    /**
      However the list is cut into chunks and whatever it repeats, the claim is one set claim: the
      answer is exactly what the job owns of it afterwards, every hash asked for has an owner, and
      no other entry moved.
     */
    method ClaimRecordHashes(hashes: seq<Hash>, job: JobId, chunkSize: nat) returns (won: set<Hash>)
      requires chunkSize >= 1
      modifies this
      ensures owner == Claimed(old(owner), Elements(hashes), job)
      ensures won == Owned(owner, Elements(hashes), job)
      ensures won == set h | h in hashes && (h in old(owner) ==> old(owner)[h] == job)
      ensures forall h | h in hashes :: h in owner && (h in won <==> owner[h] == job)
      ensures forall h | h in old(owner) :: h in owner && owner[h] == old(owner)[h]
    {
      var unique := Unique(hashes);
      won := {};
      if unique == [] {
        assert Elements(hashes) == {};
        assert owner == Claimed(owner, {}, job);
        return;
      }
      var parts := Chunks(unique, chunkSize);
      ghost var asked: set<Hash> := {};
      for n := 0 to |parts|
        invariant asked == Elements(Flat(parts[..n]))
        invariant owner == Claimed(old(owner), asked, job)
        invariant won == Owned(owner, asked, job)
      {
        var part := parts[n];
        ClaimInTwo(old(owner), asked, Elements(part), job);
        FlatPush(parts[..n], part);
        assert parts[..n] + [part] == parts[..n + 1];
        var mine := ClaimChunk(part, job);
        won := won + mine;
        asked := asked + Elements(part);
      }
      assert parts[..|parts|] == parts;
      assert asked == Elements(hashes);
    }

    /** Only this job's own rows go, and of those only the hashes named. */
    method ReleaseRecordHashes(hashes: seq<Hash>, job: JobId, chunkSize: nat)
      requires chunkSize >= 1
      modifies this
      ensures owner == Released(old(owner), Elements(hashes), job)
      ensures forall h | h in old(owner) :: h in owner <==> !(h in hashes && old(owner)[h] == job)
      ensures forall h | h in owner :: h in old(owner) && owner[h] == old(owner)[h]
    {
      var parts := Chunks(Unique(hashes), chunkSize);
      ghost var asked: set<Hash> := {};
      for n := 0 to |parts|
        invariant asked == Elements(Flat(parts[..n]))
        invariant owner == Released(old(owner), asked, job)
      {
        var part := parts[n];
        ReleaseInTwo(old(owner), asked, Elements(part), job);
        FlatPush(parts[..n], part);
        assert parts[..n] + [part] == parts[..n + 1];
        owner := map h | h in owner && !(h in part && owner[h] == job) :: owner[h];
        asked := asked + Elements(part);
      }
      assert parts[..|parts|] == parts;
      assert asked == Elements(hashes);
    }

    /**
      The records to send. `picks` are their positions: in input order, the first record of each
      hash won and no other, so the hashes sent are exactly the hashes held.
     */
    method ClaimRecords<R>(records: seq<R>, hashes: seq<Hash>, job: JobId, chunkSize: nat)
      returns (kept: seq<R>, won: set<Hash>, ghost picks: seq<nat>)
      requires |records| == |hashes| && chunkSize >= 1
      modifies this
      ensures owner == Claimed(old(owner), Elements(hashes), job)
      ensures won == Owned(owner, Elements(hashes), job)
      ensures |picks| == |kept|
      ensures forall k | 0 <= k < |picks| :: picks[k] < |records| && kept[k] == records[picks[k]]
      ensures forall i, k | 0 <= i < k < |picks| :: picks[i] < picks[k] && hashes[picks[i]] != hashes[picks[k]]
      ensures forall k, m | 0 <= k < |picks| && 0 <= m < picks[k] :: hashes[m] != hashes[picks[k]]
      ensures won == HashesAt(hashes, picks)
      ensures kept == [] <==> won == {}
    {
      won := ClaimRecordHashes(hashes, job, chunkSize);
      kept, picks := [], [];
      var seen: set<Hash> := {};
      for i := 0 to |records|
        invariant owner == Claimed(old(owner), Elements(hashes), job)
        invariant |picks| == |kept|
        invariant forall k | 0 <= k < |picks| :: picks[k] < i && kept[k] == records[picks[k]]
        invariant forall k, l | 0 <= k < l < |picks| :: picks[k] < picks[l] && hashes[picks[k]] != hashes[picks[l]]
        invariant forall k, m | 0 <= k < |picks| && 0 <= m < picks[k] :: hashes[m] != hashes[picks[k]]
        invariant seen == HashesAt(hashes, picks)
        invariant seen == set m | 0 <= m < i && hashes[m] in won :: hashes[m]
      {
        if hashes[i] in won && hashes[i] !in seen {
          seen := seen + {hashes[i]};
          kept := kept + [records[i]];
          PickOne(hashes, picks, i);
          picks := picks + [i];
        }
      }
      assert won == seen;
      if picks != [] {
        assert hashes[picks[0]] in won;
      }
    }
  }
}
