/** The nested generation loop both list handlers run (main.py:259-270 for logs, main.py:312-323
    for commits): walk the services in catalog order, and for each one append as many records as
    its allotment says. Record number `k` overall is made from the `k`-th draw of the random
    source, so the draws are a stream `draws: nat -> D`. */
module Collection {
  import Catalog
  import opened Allotment

  /** The `count` records of one service, made from the draws `from`, `from + 1`, ... */
  function Block<D, R>(service: string, draws: nat -> D, from: nat, count: nat, make: (string, D) -> R): (block: seq<R>)
    ensures |block| == count
    decreases count
  {
    if count == 0 then []
    else Block(service, draws, from, count - 1, make) + [make(service, draws(from + count - 1))]
  }

  /** The records of the first `k` services, in generation order. */
  function Collected<D, R>(n: nat, k: nat, draws: nat -> D, make: (string, D) -> R): (records: seq<R>)
    requires k <= |Catalog.SERVICES|
    ensures |records| == AllotPrefix(n, k)
  {
    if k == 0 then []
    else Collected(n, k - 1, draws, make)
         + Block(Catalog.SERVICES[k - 1], draws, AllotPrefix(n, k - 1), Allot(n, k - 1), make)
  }

  /** Generates `n` records across the services the way the handlers' nested loops do. */
  method CollectAcrossServices<D, R>(n: nat, draws: nat -> D, make: (string, D) -> R) returns (records: seq<R>)
    ensures records == Collected(n, |Catalog.SERVICES|, draws, make)
    ensures |records| == n
  {
    records := [];
    var perService := n / |Catalog.SERVICES|;
    var remainder := n % |Catalog.SERVICES|;
    for idx := 0 to |Catalog.SERVICES|
      invariant records == Collected(n, idx, draws, make)
    {
      var service := Catalog.SERVICES[idx];
      var count := perService + (if idx < remainder then 1 else 0);
      assert count == Allot(n, idx);
      for i := 0 to count
        invariant records == Collected(n, idx, draws, make) + Block(service, draws, AllotPrefix(n, idx), i, make)
      {
        records := records + [make(service, draws(|records|))];
      }
    }
    AllotmentSum(n);
  }

  /** The `j`-th record of a block is made for its service from draw `from + j`. */
  lemma {:induction false} BlockAt<D, R>(service: string, draws: nat -> D, from: nat, count: nat, make: (string, D) -> R, j: nat)
    requires j < count
    ensures Block(service, draws, from, count, make)[j] == make(service, draws(from + j))
    decreases count
  {
    if j < count - 1 {
      BlockAt(service, draws, from, count - 1, make, j);
    }
  }

  /** Extending the services counted keeps the records already there. */
  lemma {:induction false} CollectedPrefix<D, R>(n: nat, j: nat, k: nat, draws: nat -> D, make: (string, D) -> R)
    requires j <= k <= |Catalog.SERVICES|
    ensures Collected(n, j, draws, make) <= Collected(n, k, draws, make)
    decreases k - j
  {
    if j < k {
      CollectedPrefix(n, j, k - 1, draws, make);
      var shorter := Collected(n, k - 1, draws, make);
      assert Collected(n, k, draws, make)
             == shorter + Block(Catalog.SERVICES[k - 1], draws, AllotPrefix(n, k - 1), Allot(n, k - 1), make);
      assert shorter <= Collected(n, k, draws, make);
    }
  }

  /** Within the records of services `0..idx`, position `AllotPrefix(n, idx) + j` is the `j`-th
      record of service `idx`'s block. */
  lemma BlockInCollected<D, R>(n: nat, idx: Catalog.ServiceIndex, j: nat, draws: nat -> D, make: (string, D) -> R)
    requires j < Allot(n, idx)
    ensures var upTo, r := Collected(n, idx + 1, draws, make), AllotPrefix(n, idx) + j;
            r < |upTo| && upTo[r] == make(Catalog.SERVICES[idx], draws(r))
  {
    var before := Collected(n, idx, draws, make);
    var block := Block(Catalog.SERVICES[idx], draws, AllotPrefix(n, idx), Allot(n, idx), make);
    assert Collected(n, idx + 1, draws, make) == before + block;
    BlockAt(Catalog.SERVICES[idx], draws, AllotPrefix(n, idx), Allot(n, idx), make, j);
    AppendAt(before, block, j);
  }

  lemma AppendAt<R>(before: seq<R>, block: seq<R>, j: nat)
    requires j < |block|
    ensures |before| + j < |before + block| && (before + block)[|before| + j] == block[j]
  {
  }

  /** Service `idx` owns exactly the positions `AllotPrefix(n, idx)` up to `AllotPrefix(n, idx + 1)`
      (`Allot(n, idx)` of them), and the record at each such position `r` is made for that
      service from draw `r`. */
  lemma CollectedAt<D, R>(n: nat, idx: Catalog.ServiceIndex, j: nat, draws: nat -> D, make: (string, D) -> R)
    requires j < Allot(n, idx)
    ensures var records, r := Collected(n, |Catalog.SERVICES|, draws, make), AllotPrefix(n, idx) + j;
            r < |records| && records[r] == make(Catalog.SERVICES[idx], draws(r))
  {
    BlockInCollected(n, idx, j, draws, make);
    CollectedPrefix(n, idx + 1, |Catalog.SERVICES|, draws, make);
  }

  /** The service, searched from position `k` on, whose block holds record number `r`. */
  function OwnerFrom(n: nat, r: nat, k: Catalog.ServiceIndex): (idx: Catalog.ServiceIndex)
    requires AllotPrefix(n, k) <= r < n
    ensures k <= idx && AllotPrefix(n, idx) <= r < AllotPrefix(n, idx) + Allot(n, idx)
    decreases |Catalog.SERVICES| - k
  {
    AllotmentSum(n);
    if r < AllotPrefix(n, k) + Allot(n, k) then k else OwnerFrom(n, r, k + 1)
  }

  /** The service that record number `r` of `n` is generated for. */
  function Owner(n: nat, r: nat): (idx: Catalog.ServiceIndex)
    requires r < n
    ensures AllotPrefix(n, idx) <= r < AllotPrefix(n, idx) + Allot(n, idx)
  {
    OwnerFrom(n, r, 0)
  }

  /** Every generated record is made for the service that owns its position, from the draw with
      its own index. */
  lemma CollectedRecord<D, R>(n: nat, r: nat, draws: nat -> D, make: (string, D) -> R)
    requires r < n
    ensures var records := Collected(n, |Catalog.SERVICES|, draws, make);
            |records| == n && records[r] == make(Catalog.SERVICES[Owner(n, r)], draws(r))
  {
    var idx := Owner(n, r);
    CollectedAt(n, idx, r - AllotPrefix(n, idx), draws, make);
    AllotmentSum(n);
  }

  /** A property every made record has is a property of every generated record. */
  lemma CollectedAll<D, R>(n: nat, draws: nat -> D, make: (string, D) -> R, holds: R -> bool)
    requires forall service: string, k: nat :: holds(make(service, draws(k)))
    ensures forall x :: x in Collected(n, |Catalog.SERVICES|, draws, make) ==> holds(x)
  {
    var records := Collected(n, |Catalog.SERVICES|, draws, make);
    AllotmentSum(n);
    forall x | x in records
      ensures holds(x)
    {
      var r :| 0 <= r < |records| && records[r] == x;
      CollectedRecord(n, r, draws, make);
    }
  }
}
