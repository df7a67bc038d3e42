/** How one payment is split between the payer's wallet and the external channel,
    and how its refunds are routed back over the same two legs. */
module WalletAllocations {
  import opened Wrappers
  import opened Totals

  datatype AllocationStatus = Held | Consumed | Released | PartlyReturned | FullyReturned

  datatype Allocation = Allocation(
    payable: nat,
    wallet: nat,
    external: nat,
    walletReturned: int,
    externalReturned: int,
    walletReleased: bool,
    status: AllocationStatus)

  // The table's check constraint: the two legs make up the payable amount.
  predicate LegsMatch(a: Allocation) {
    a.wallet + a.external == a.payable
  }

  /** Holds as much of the payable amount as the wallet can cover; an existing
      split is returned as it is unless its wallet part has been released. */
  function Prepare(existing: Option<Allocation>, payable: nat, available: nat, externalOnly: bool): Result<Allocation> {
    match existing
    case Some(a) =>
      if a.payable != payable || a.walletReleased || a.status == Released then Refused(WalletConflict) else Ok(a)
    case None =>
      var wallet := if externalOnly then 0 else if available < payable then available else payable;
      Ok(Allocation(payable, wallet, payable - wallet, 0, 0, false, Held))
  }

  /** A first split takes all the wallet has, up to the payable amount, unless the channel
      is to take everything. An existing split is given back as it is, or refused when
      it is for another amount or its wallet part has been let go. */
  lemma SplitByBalance(existing: Option<Allocation>, payable: nat, available: nat, externalOnly: bool)
    ensures var r := Prepare(existing, payable, available, externalOnly);
      && (existing.None? ==>
            && r.Ok?
            && r.value.wallet + r.value.external == r.value.payable == payable
            && (externalOnly ==> r.value.wallet == 0)
            && (!externalOnly ==> r.value.wallet <= available && (r.value.wallet == available || r.value.wallet == payable))
            && r.value.status == Held && !r.value.walletReleased
            && r.value.walletReturned == r.value.externalReturned == 0)
      && (existing.Some? ==>
            && (r.Ok? <==> existing.value.payable == payable && !existing.value.walletReleased && existing.value.status != Released)
            && (r.Ok? ==> r == Ok(existing.value)))
  {
  }

  function Consume(a: Allocation): Result<Allocation> {
    if a.status in {Consumed, PartlyReturned, FullyReturned} then Ok(a)
    else if a.status != Held || a.walletReleased then Refused(WalletConflict)
    else Ok(a.(status := Consumed))
  }

  function Release(a: Allocation): Allocation {
    if a.status == Held then a.(status := Released, walletReleased := true) else a
  }

  // Books one completed refund. A second call for the same refund finds its receipt.
  function CompleteWalletRefund(a: Allocation, walletLeg: int, externalLeg: int, receipt: bool): Result<Allocation> {
    if receipt then Ok(a)
    else if a.status == Held then Refused(WalletConflict)
    else if walletLeg < 0 || externalLeg < 0 || a.walletReturned + walletLeg > a.wallet || a.externalReturned + externalLeg > a.external then
      Refused(AmountExceedsRefundable)
    else if (a.walletReleased || a.status == Released) && walletLeg != 0 then Refused(WalletConflict)
    else
      var wasReleased := a.walletReleased || a.status == Released;
      var w, e := a.walletReturned + walletLeg, a.externalReturned + externalLeg;
      var full := (wasReleased && e >= a.external) || (w >= a.wallet && e >= a.external);
      Ok(a.(walletReturned := w, externalReturned := e, status := if full then FullyReturned else PartlyReturned))
  }

  // ----- routing -----

  // The wallet's share of everything refunded so far.
  function WalletTarget(a: Allocation, cumulative: nat): nat {
    if cumulative >= a.payable then a.wallet else cumulative * a.wallet / a.payable
  }

  datatype Legs = Legs(wallet: int, external: int)

  function Max(x: int, y: int): int { if x < y then y else x }

  function Min(x: int, y: int): int { if x < y then x else y }

  function Route(allocation: Option<Allocation>, amount: nat, reserved: nat, reservedWallet: int): Result<Legs> {
    if allocation.Some? && allocation.value.walletReleased && reserved + amount > allocation.value.external then
      Refused(AmountExceedsRefundable)
    else if allocation.None? || allocation.value.walletReleased then
      Ok(Legs(0, amount))
    else
      var w := Max(WalletTarget(allocation.value, reserved + amount) - reservedWallet, 0);
      Ok(Legs(w, amount - w))
  }

  lemma ProductMonotone(a: int, b: int, k: int)
    requires a <= b && k >= 0
    ensures a * k <= b * k
  {
  }

  lemma QuotientMonotone(x: int, y: int, n: int)
    requires 0 <= x <= y && n > 0
    ensures x / n <= y / n
  {
    if x / n > y / n {
      ProductMonotone(y / n + 1, x / n, n);
    }
  }

  lemma QuotientShift(x: int, k: int, n: int)
    requires n > 0
    ensures (x + k * n) / n == x / n + k
  {
    var q, r := x / n, x % n;
    assert x + k * n == (q + k) * n + r;
    QuotientUnique(x + k * n, q + k, r, n);
  }

  lemma QuotientUnique(x: int, q: int, r: int, n: int)
    requires n > 0 && 0 <= r < n && x == q * n + r
    ensures x / n == q
  {
    var q', r' := x / n, x % n;
    assert (q - q') * n == r' - r;
    if q > q' {
      ProductMonotone(1, q - q', n);
    } else if q < q' {
      ProductMonotone(1, q' - q, n);
    }
  }

  // The wallet share is the floor of the proportional share, at the top end too.
  lemma TargetIsFloor(a: Allocation, c: nat)
    requires LegsMatch(a) && c <= a.payable && a.payable > 0
    ensures WalletTarget(a, c) == c * a.wallet / a.payable
  {
    if c == a.payable {
      QuotientShift(0, a.wallet, a.payable);
    }
  }

  // One more refund never lowers the wallet share and never raises it by more
  // than the refund, so neither leg of the refund is negative.
  lemma TargetStep(a: Allocation, c: nat, x: nat)
    requires LegsMatch(a) && c + x <= a.payable
    ensures WalletTarget(a, c) <= WalletTarget(a, c + x) <= WalletTarget(a, c) + x
    ensures c - WalletTarget(a, c) <= a.external
    ensures WalletTarget(a, c) <= a.wallet
  {
    if a.payable > 0 {
      TargetIsFloor(a, c);
      TargetIsFloor(a, c + x);
      FloorStep(c, x, a.wallet, a.payable);
      TargetIsFloor(a, a.payable);
      FloorStep(c, a.payable - c, a.wallet, a.payable);
    }
  }

  lemma FloorStep(c: nat, x: nat, w: nat, n: nat)
    requires w <= n && n > 0
    ensures c * w / n <= (c + x) * w / n <= c * w / n + x
  {
    ProductMonotone(c, c + x, w);
    QuotientMonotone(c * w, (c + x) * w, n);
    ProductMonotone(w, n, x);
    assert (c + x) * w == c * w + w * x;
    assert w * x <= x * n;
    QuotientMonotone((c + x) * w, c * w + x * n, n);
    QuotientShift(c * w, x, n);
  }

  // ----- a whole series of refunds of one payment -----

  // The legs of each refund of a series, each routed after the ones before it.
  function RouteAll(a: Allocation, amounts: seq<nat>): Result<seq<Legs>> {
    if amounts == [] then Ok([])
    else
      var n := |amounts| - 1;
      var before :- RouteAll(a, amounts[..n]);
      var legs :- Route(Some(a), amounts[n], Sum(amounts[..n]), Total(before, WalletLeg));
      Ok(before + [legs])
  }

  function Sum(amounts: seq<nat>): nat {
    if amounts == [] then 0 else Sum(amounts[..|amounts| - 1]) + amounts[|amounts| - 1]
  }

  function WalletLeg(l: Legs): int { l.wallet }

  function ExternalLeg(l: Legs): int { l.external }

  // One refund of a series gets exactly the growth of the wallet share.
  lemma RouteStep(a: Allocation, c: nat, x: nat)
    requires LegsMatch(a) && !a.walletReleased && c + x <= a.payable
    ensures var w := WalletTarget(a, c + x) - WalletTarget(a, c);
      0 <= w <= x && Route(Some(a), x, c, WalletTarget(a, c)) == Ok(Legs(w, x - w))
  {
    TargetStep(a, c, x);
    hide WalletTarget;
  }

  lemma {:induction false} SeriesRoutes(a: Allocation, amounts: seq<nat>)
    requires LegsMatch(a) && !a.walletReleased && Sum(amounts) <= a.payable
    ensures RouteAll(a, amounts).Ok?
    ensures var legs := RouteAll(a, amounts).value;
      && |legs| == |amounts|
      && (forall i :: 0 <= i < |legs| ==> legs[i].wallet >= 0 && legs[i].external >= 0 && legs[i].wallet + legs[i].external == amounts[i])
      && Total(legs, WalletLeg) == WalletTarget(a, Sum(amounts))
      && Total(legs, WalletLeg) + Total(legs, ExternalLeg) == Sum(amounts)
  {
    hide WalletTarget, Route;
    if amounts == [] {
      TargetOfNothing(a);
    } else {
      var n := |amounts| - 1;
      SeriesRoutes(a, amounts[..n]);
      var before := RouteAll(a, amounts[..n]).value;
      RouteStep(a, Sum(amounts[..n]), amounts[n]);
      var legs := Route(Some(a), amounts[n], Sum(amounts[..n]), Total(before, WalletLeg)).value;
      TotalAppend(before, legs, WalletLeg);
      TotalAppend(before, legs, ExternalLeg);
      hide Total;
    }
  }

  /** However a refund total is chopped up, the wallet has received the floor of
      its share and exactly its whole share at the end; no leg is negative; and
      neither side ever returns more than it paid. */
  lemma SplitOfAnySeries(a: Allocation, amounts: seq<nat>)
    requires LegsMatch(a) && !a.walletReleased && Sum(amounts) <= a.payable
    ensures RouteAll(a, amounts).Ok?
    ensures var legs := RouteAll(a, amounts).value;
      && |legs| == |amounts|
      && (forall i :: 0 <= i < |legs| ==> legs[i].wallet >= 0 && legs[i].external >= 0 && legs[i].wallet + legs[i].external == amounts[i])
      && Total(legs, WalletLeg) == WalletTarget(a, Sum(amounts))
      && Total(legs, WalletLeg) + Total(legs, ExternalLeg) == Sum(amounts)
      && Total(legs, WalletLeg) <= a.wallet
      && Total(legs, ExternalLeg) <= a.external
      && (a.payable > 0 ==> Total(legs, WalletLeg) == Sum(amounts) * a.wallet / a.payable)
      && (Sum(amounts) == a.payable ==> Total(legs, WalletLeg) == a.wallet && Total(legs, ExternalLeg) == a.external)
  {
    hide RouteAll, Total;
    SeriesRoutes(a, amounts);
    TargetStep(a, Sum(amounts), 0);
    if a.payable > 0 {
      TargetIsFloor(a, Sum(amounts));
    }
    EverythingRefunded(a);
    hide WalletTarget, Sum;
  }

  lemma EverythingRefunded(a: Allocation)
    ensures WalletTarget(a, a.payable) == a.wallet
  {
  }

  lemma TargetOfNothing(a: Allocation)
    requires LegsMatch(a)
    ensures WalletTarget(a, 0) == 0
  {
  }

  // Two ways of refunding the same total return the same amount over each leg.
  lemma ChoppingDoesNotMatter(a: Allocation, xs: seq<nat>, ys: seq<nat>)
    requires LegsMatch(a) && !a.walletReleased && Sum(xs) == Sum(ys) <= a.payable
    ensures RouteAll(a, xs).Ok? && RouteAll(a, ys).Ok?
    ensures Total(RouteAll(a, xs).value, WalletLeg) == Total(RouteAll(a, ys).value, WalletLeg)
    ensures Total(RouteAll(a, xs).value, ExternalLeg) == Total(RouteAll(a, ys).value, ExternalLeg)
  {
    SplitOfAnySeries(a, xs);
    SplitOfAnySeries(a, ys);
  }
}
