/** The split of a requested record count across the services (main.py:256-260, and again at
    main.py:309-313): every service gets `n / 6` records and the first `n % 6` services, in
    catalog order, get one more. */
module Allotment {
  import Catalog

  /** Records allotted to the service at position `idx`. */
  function Allot(n: nat, idx: Catalog.ServiceIndex): (count: nat)
    ensures count == n / |Catalog.SERVICES| || count == n / |Catalog.SERVICES| + 1
    ensures count == n / |Catalog.SERVICES| + 1 <==> idx < n % |Catalog.SERVICES|
  {
    var perService := n / |Catalog.SERVICES|;
    var remainder := n % |Catalog.SERVICES|;
    perService + (if idx < remainder then 1 else 0)
  }

  /** Records allotted to the first `k` services together. */
  function AllotPrefix(n: nat, k: nat): nat
    requires k <= |Catalog.SERVICES|
  {
    if k == 0 then 0 else AllotPrefix(n, k - 1) + Allot(n, k - 1)
  }

  /** The first `k` services hold `k` shares plus one extra for each of them below the remainder. */
  lemma {:induction false} AllotPrefixClosedForm(n: nat, k: nat)
    requires k <= |Catalog.SERVICES|
    ensures AllotPrefix(n, k) == k * (n / |Catalog.SERVICES|) + (if k < n % |Catalog.SERVICES| then k else n % |Catalog.SERVICES|)
  {
    if k > 0 {
      AllotPrefixClosedForm(n, k - 1);
      var perService := n / |Catalog.SERVICES|;
      assert k * perService == (k - 1) * perService + perService;
    }
  }

  /** The allotments add up to the requested count: no record is lost or invented. */
  lemma AllotmentSum(n: nat)
    ensures AllotPrefix(n, |Catalog.SERVICES|) == n
  {
    AllotPrefixClosedForm(n, |Catalog.SERVICES|);
  }

  /** Prefix sums grow with the number of services counted. */
  lemma {:induction false} AllotPrefixMonotone(n: nat, j: nat, k: nat)
    requires j <= k <= |Catalog.SERVICES|
    ensures AllotPrefix(n, j) <= AllotPrefix(n, k)
    decreases k - j
  {
    if j < k {
      AllotPrefixMonotone(n, j, k - 1);
    }
  }
}
