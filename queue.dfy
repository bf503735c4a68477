/** The training queues of both games: entries that finish at a timestamp, and
    their split into completed (endTime <= now) and remaining entries. */
module TrainingQueue {
  import opened Seqs

  datatype Entry<K> = Entry(kind: K, endTime: int)

  function Completed<K>(q: seq<Entry<K>>, now: int): (r: seq<Entry<K>>)
    ensures forall i :: 0 <= i < |r| ==> r[i].endTime <= now && r[i] in q
    ensures forall i :: 0 <= i < |q| && q[i].endTime <= now ==> q[i] in r
  {
    Filter(q, (e: Entry<K>) => e.endTime <= now)
  }

  function Remaining<K>(q: seq<Entry<K>>, now: int): (r: seq<Entry<K>>)
    ensures forall i :: 0 <= i < |r| ==> r[i].endTime > now && r[i] in q
    ensures forall i :: 0 <= i < |q| && q[i].endTime > now ==> q[i] in r
  {
    Filter(q, (e: Entry<K>) => e.endTime > now)
  }

  /** Every entry is either completed or remaining, exactly once. */
  lemma Partition<K>(q: seq<Entry<K>>, now: int)
    ensures |Completed(q, now)| + |Remaining(q, now)| == |q|
    ensures multiset(Completed(q, now)) + multiset(Remaining(q, now)) == multiset(q)
  {
    FilterComplement(q, (e: Entry<K>) => e.endTime <= now, (e: Entry<K>) => e.endTime > now);
  }

  /** When every entry is due, one promotion empties the queue. */
  lemma AllDue<K>(q: seq<Entry<K>>, now: int)
    requires forall i :: 0 <= i < |q| ==> q[i].endTime <= now
    ensures Completed(q, now) == q && Remaining(q, now) == []
  {
    FilterKeepsAll(q, (e: Entry<K>) => e.endTime <= now);
    Partition(q, now);
  }

  /** Promoting twice at the same instant completes nothing the second time. */
  lemma PromotionIdempotent<K>(q: seq<Entry<K>>, now: int)
    ensures Completed(Remaining(q, now), now) == []
    ensures Remaining(Remaining(q, now), now) == Remaining(q, now)
  {
    var r := Remaining(q, now);
    FilterKeepsNone(r, (e: Entry<K>) => e.endTime <= now);
    FilterKeepsAll(r, (e: Entry<K>) => e.endTime > now);
  }

  /** An entry appended later is promoted after the ones before it. */
  lemma CompletedAppend<K>(q: seq<Entry<K>>, e: Entry<K>, now: int)
    ensures Completed(q + [e], now) == Completed(q, now) + (if e.endTime <= now then [e] else [])
    ensures Remaining(q + [e], now) == Remaining(q, now) + (if e.endTime > now then [e] else [])
  {
    FilterAppend(q, [e], (x: Entry<K>) => x.endTime <= now);
    FilterAppend(q, [e], (x: Entry<K>) => x.endTime > now);
  }

  /** Number of entries of one kind. */
  function CountKind<K(==)>(q: seq<Entry<K>>, k: K): (n: nat)
    ensures n <= |q|
    ensures n == 0 <==> forall i :: 0 <= i < |q| ==> q[i].kind != k
  {
    if |q| == 0 then 0 else (if q[0].kind == k then 1 else 0) + CountKind(q[1..], k)
  }

  lemma {:induction false} CountKindAppend<K>(q: seq<Entry<K>>, e: Entry<K>, k: K)
    ensures CountKind(q + [e], k) == CountKind(q, k) + (if e.kind == k then 1 else 0)
  {
    if |q| > 0 {
      assert (q + [e])[1..] == q[1..] + [e];
      CountKindAppend(q[1..], e, k);
    } else {
      assert CountKind([e], k) == (if e.kind == k then 1 else 0) + CountKind([], k);
    }
  }
}
