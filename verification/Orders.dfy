/** Orders and their overflow-checked totals (internal/order/model.go). */
module Orders {
  import opened Prelude
  import opened Text
  import opened Permutations

  datatype Status = Pending | Confirmed | Failed

  const CURRENCY_RUB: string := "RUB"
  const MAX_SKU_RUNES: nat := 128

  datatype Item = Item(sku: string, quantity: int32, unitPriceMinor: int64)

  datatype Order = Order(
    id: Uuid, customerId: Uuid, warehouseId: Uuid, status: Status, currency: string,
    totalAmountMinor: int64, items: seq<Item>, createdAt: Time, updatedAt: Time)

  datatype CreateCommand = CreateCommand(customerId: Uuid, warehouseId: Uuid, items: seq<Item>)

  datatype CreatedPayload = CreatedPayload(
    customerId: Uuid, warehouseId: Uuid, currency: string, totalAmountMinor: int64, items: seq<Item>)

  datatype StatusChangedPayload = StatusChangedPayload(previous: Status, current: Status, reason: string)

  /** Every rejection wraps `ErrInvalidRequest`; the message text is not modelled. */
  datatype OrderError = ErrInvalidRequest

  // ---------- what a valid command is, in unbounded arithmetic ----------

  predicate ValidItem(item: Item) {
    && !Blank(item.sku) && |item.sku| <= MAX_SKU_RUNES
    && item.quantity > 0 && item.unitPriceMinor > 0
  }

  predicate ValidItems(items: seq<Item>) {
    forall i :: 0 <= i < |items| ==> ValidItem(items[i])
  }

  predicate DistinctSkus(items: seq<Item>) {
    forall i, j :: 0 <= i < j < |items| ==> items[i].sku != items[j].sku
  }

  function LineTotal(item: Item): int {
    item.quantity * item.unitPriceMinor
  }

  /** The mathematical total, with no bound on intermediate values. */
  function Sum(items: seq<Item>): int {
    if items == [] then 0
    else Sum(items[..|items| - 1]) + LineTotal(items[|items| - 1])
  }

  predicate Acceptable(command: CreateCommand) {
    && command.customerId != NIL_UUID
    && command.warehouseId != NIL_UUID
    && command.items != []
    && ValidItems(command.items)
    && DistinctSkus(command.items)
    && Sum(command.items) <= MAX_INT64
  }

  // ---------- the same, said without the formula ----------

  function Repeated(price: int, units: nat): int {
    if units == 0 then 0 else price + Repeated(price, units - 1)
  }

  /** The prices of all units, one by one. */
  function UnitTotal(items: seq<Item>): int {
    if items == [] then 0
    else Repeated(items[0].unitPriceMinor, Max(0, items[0].quantity)) + UnitTotal(items[1..])
  }

  /** What a caller must send, field by field. */
  predicate Proper(command: CreateCommand) {
    && command.customerId != 0 && command.warehouseId != 0 && |command.items| > 0
    && (forall i :: 0 <= i < |command.items| ==>
          && TrimSpace(command.items[i].sku) != "" && |command.items[i].sku| <= 128
          && command.items[i].quantity > 0 && command.items[i].unitPriceMinor > 0)
    && (forall i, j :: 0 <= i < j < |command.items| ==> command.items[i].sku != command.items[j].sku)
    && UnitTotal(command.items) <= 0x7fff_ffff_ffff_ffff
  }

  lemma {:induction false} RepeatedIs(price: int, units: nat)
    ensures Repeated(price, units) == units * price
  {
    if units > 0 {
      RepeatedIs(price, units - 1);
      assert units * price == (units - 1) * price + price;
    }
  }

  lemma {:induction false} UnitTotalExtend(items: seq<Item>)
    requires items != []
    ensures var last := items[|items| - 1];
            UnitTotal(items) == UnitTotal(items[..|items| - 1]) + Repeated(last.unitPriceMinor, Max(0, last.quantity))
  {
    var front := items[..|items| - 1];
    if |items| == 1 {
      assert items[1..] == [];
    } else {
      assert items[1..][..|items| - 2] == front[1..];
      UnitTotalExtend(items[1..]);
    }
  }

  lemma {:induction false} SumIsUnitTotal(items: seq<Item>)
    requires forall i :: 0 <= i < |items| ==> items[i].quantity >= 0
    ensures Sum(items) == UnitTotal(items)
  {
    if items != [] {
      SumIsUnitTotal(items[..|items| - 1]);
      UnitTotalExtend(items);
      RepeatedIs(items[|items| - 1].unitPriceMinor, items[|items| - 1].quantity);
    }
  }

  lemma AcceptableIff(command: CreateCommand)
    ensures Acceptable(command) <==> Proper(command)
    ensures Acceptable(command) ==> Sum(command.items) == UnitTotal(command.items)
  {
    var items := command.items;
    forall i | 0 <= i < |items| ensures Blank(items[i].sku) <==> TrimSpace(items[i].sku) == "" {
      BlankIff(items[i].sku);
    }
    if forall i :: 0 <= i < |items| ==> items[i].quantity >= 0 {
      SumIsUnitTotal(items);
    }
    assert Acceptable(command) ==> forall i :: 0 <= i < |items| ==> ValidItem(items[i]);
  }

  lemma LineIsPositive(item: Item)
    requires ValidItem(item)
    ensures LineTotal(item) > 0
  {
  }

  lemma {:induction false} SumIsMonotone(items: seq<Item>, k: nat)
    requires k <= |items| && ValidItems(items)
    ensures 0 <= Sum(items[..k]) <= Sum(items)
    ensures k > 0 ==> Sum(items[..k]) > 0
    decreases |items|
  {
    if k < |items| {
      var front := items[..|items| - 1];
      SumIsMonotone(front, k);
      assert front[..k] == items[..k];
      LineIsPositive(items[|items| - 1]);
    } else {
      assert items[..k] == items;
      if items != [] {
        var front := items[..|items| - 1];
        SumIsMonotone(front, |front|);
        assert front[..|front|] == front;
        LineIsPositive(items[|items| - 1]);
      }
    }
  }

  lemma DivideBound(quantity: int, price: int)
    requires quantity > 0 && price > 0
    ensures price > MAX_INT64 / quantity <==> quantity * price > MAX_INT64
  {
    var q, r := MAX_INT64 / quantity, MAX_INT64 % quantity;
    assert MAX_INT64 == quantity * q + r;
    if price > q {
      assert quantity * price >= quantity * (q + 1);
    } else {
      assert quantity * price <= quantity * q;
    }
  }

  /** A malformed or repeated item, or a prefix whose total is too large, dooms the whole command. */
  lemma PrefixOfAcceptable(command: CreateCommand, k: nat)
    requires Acceptable(command) && k < |command.items|
    ensures ValidItem(command.items[k])
    ensures command.items[k].sku !in SkusOf(command.items[..k])
    ensures Sum(command.items[..k]) + LineTotal(command.items[k]) <= MAX_INT64
  {
    SumIsMonotone(command.items, k + 1);
    SumExtend(command.items, k);
  }

  lemma RejectedItem(command: CreateCommand, k: nat)
    requires k < |command.items|
    requires !ValidItem(command.items[k]) || command.items[k].sku in SkusOf(command.items[..k])
             || Sum(command.items[..k]) + LineTotal(command.items[k]) > MAX_INT64
    ensures !Acceptable(command)
  {
    if Acceptable(command) {
      PrefixOfAcceptable(command, k);
    }
  }

  function SkusOf(items: seq<Item>): (skus: set<string>)
    ensures forall i :: 0 <= i < |items| ==> items[i].sku in skus
    ensures forall sku :: sku in skus ==> exists i :: 0 <= i < |items| && items[i].sku == sku
  {
    if items == [] then {} else SkusOf(items[..|items| - 1]) + {items[|items| - 1].sku}
  }

  /** The part of `Acceptable` that the loop has established for a prefix. */
  predicate PrefixOk(items: seq<Item>) {
    ValidItems(items) && DistinctSkus(items)
  }

  lemma PrefixExtend(items: seq<Item>, k: nat)
    requires k < |items| && PrefixOk(items[..k])
    requires ValidItem(items[k]) && items[k].sku !in SkusOf(items[..k])
    ensures PrefixOk(items[..k + 1])
    ensures SkusOf(items[..k + 1]) == SkusOf(items[..k]) + {items[k].sku}
  {
    var a, b := items[..k], items[..k + 1];
    assert b[..k] == a;
    forall i | 0 <= i < |b| ensures ValidItem(b[i]) {
      assert i < k ==> b[i] == a[i];
    }
    forall i, j | 0 <= i < j < |b| ensures b[i].sku != b[j].sku {
      assert b[i] == a[i] && (j < k ==> b[j] == a[j]);
    }
  }

  lemma AcceptedItems(command: CreateCommand)
    requires command.customerId != NIL_UUID && command.warehouseId != NIL_UUID && command.items != []
    requires PrefixOk(command.items[..|command.items|]) && Sum(command.items[..|command.items|]) <= MAX_INT64
    ensures Acceptable(command) && Sum(command.items) == Sum(command.items[..|command.items|])
  {
    assert command.items[..|command.items|] == command.items;
  }

  lemma SumExtend(items: seq<Item>, k: nat)
    requires k < |items|
    ensures Sum(items[..k + 1]) == Sum(items[..k]) + LineTotal(items[k])
  {
    assert items[..k + 1][..k] == items[..k];
  }

  /**
   * The overflow checks of one loop iteration. Its integer variables have type int64, so
   * verification also shows that no intermediate value wraps around.
   */
  method AddLine(total: int64, item: Item) returns (sum: Option<int64>)
    requires ValidItem(item) && total >= 0
    ensures sum.Some? <==> total + item.quantity * item.unitPriceMinor <= 0x7fff_ffff_ffff_ffff
    ensures sum.Some? ==> sum.value == total + item.quantity * item.unitPriceMinor > 0
  {
    var quantity: int64 := item.quantity;
    DivideBound(quantity, item.unitPriceMinor);
    LineIsPositive(item);
    if item.unitPriceMinor > MAX_INT64 / quantity {
      return None;
    }
    var lineTotal: int64 := quantity * item.unitPriceMinor;
    if total > MAX_INT64 - lineTotal {
      return None;
    }
    return Some(total + lineTotal);
  }

  /** The validation loop of `order.New`. */
  method CheckItems(command: CreateCommand) returns (sum: Option<int64>)
    requires command.customerId != NIL_UUID && command.warehouseId != NIL_UUID && command.items != []
    ensures sum.Some? <==> Acceptable(command)
    ensures sum.Some? ==> sum.value == Sum(command.items) && sum.value > 0
  {
    var total: int64 := 0;
    var seen: set<string> := {};
    var items := command.items;
    for i := 0 to |items|
      invariant PrefixOk(items[..i])
      invariant seen == SkusOf(items[..i])
      invariant total == Sum(items[..i]) >= 0
      invariant i > 0 ==> total > 0
    {
      var item := items[i];
      if Blank(item.sku) || |item.sku| > MAX_SKU_RUNES || item.quantity <= 0 || item.unitPriceMinor <= 0 {
        RejectedItem(command, i);
        return None;
      }
      if item.sku in seen {
        RejectedItem(command, i);
        return None;
      }
      PrefixExtend(items, i);
      seen := seen + {item.sku};
      SumExtend(items, i);
      sum := AddLine(total, item);
      if sum.None? {
        RejectedItem(command, i);
        return None;
      }
      total := sum.value;
    }
    AcceptedItems(command);
    return Some(total);
  }

  /** The checks of `order.New`, which `CreatedPayload.Validate` repeats. */
  method Validate(command: CreateCommand) returns (r: Result<int64, OrderError>)
    ensures r.Success? <==> Proper(command)
    ensures r.Success? ==> r.value == UnitTotal(command.items) && r.value > 0
  {
    AcceptableIff(command);
    if command.customerId == NIL_UUID || command.warehouseId == NIL_UUID || |command.items| == 0 {
      return Failure(ErrInvalidRequest);
    }
    var sum := CheckItems(command);
    return if sum.Some? then Success(sum.value) else Failure(ErrInvalidRequest);
  }

  // ---------- permuting the items changes nothing ----------

  lemma {:induction false} SumRemove(items: seq<Item>, k: nat)
    requires k < |items|
    ensures Sum(items) == Sum(RemoveAt(items, k)) + LineTotal(items[k])
    decreases |items|
  {
    var last := |items| - 1;
    var rest := RemoveAt(items, k);
    if k == last {
      assert rest == items[..last];
    } else {
      SumRemove(items[..last], k);
      assert RemoveAt(items[..last], k) == rest[..|rest| - 1];
      assert rest[|rest| - 1] == items[last];
    }
  }

  lemma {:induction false} SumPermutation(a: seq<Item>, b: seq<Item>)
    requires multiset(a) == multiset(b)
    ensures Sum(a) == Sum(b)
    decreases |a|
  {
    SameMembers(a, b);
    if a != [] {
      var k := IndexOf(b, a[0]);
      RemoveAtMultiset(a, 0);
      RemoveAtMultiset(b, k);
      SumRemove(a, 0);
      SumRemove(b, k);
      SumPermutation(RemoveAt(a, 0), RemoveAt(b, k));
    }
  }

  /** The verdict and the total do not depend on the order of the items. */
  lemma ValidationIgnoresItemOrder(command: CreateCommand, items: seq<Item>)
    requires multiset(command.items) == multiset(items)
    ensures Acceptable(command) <==> Acceptable(command.(items := items))
    ensures Sum(command.items) == Sum(items)
  {
    var a := command.items;
    SumPermutation(a, items);
    SameMembers(a, items);
    assert ValidItems(a) <==> forall x :: x in a ==> ValidItem(x);
    assert ValidItems(items) <==> forall x :: x in items ==> ValidItem(x);
    var sku := (item: Item) => item.sku;
    if DistinctSkus(a) { DistinctPermutation(sku, a, items); }
    if DistinctSkus(items) { DistinctPermutation(sku, items, a); }
  }

  // ---------- order.New and CreatedPayload.Validate ----------

  /** `order.New`; the fresh id and the clock reading are inputs. */
  function New(command: CreateCommand, id: Uuid, now: Time): Result<Order, OrderError> {
    if Acceptable(command) then
      assert Sum(command.items) >= 0 by {
        SumIsMonotone(command.items, |command.items|);
        assert command.items[..|command.items|] == command.items;
      }
      Success(Order(id, command.customerId, command.warehouseId, Pending, CURRENCY_RUB,
                    Sum(command.items), command.items, now, now))
    else
      Failure(ErrInvalidRequest)
  }

  /** The new order, field by field. */
  lemma NewOrderIs(command: CreateCommand, id: Uuid, now: Time)
    ensures New(command, id, now).Success? <==> Proper(command)
    ensures New(command, id, now).Success? ==>
              var order := New(command, id, now).value;
              && order.id == id && order.customerId == command.customerId && order.warehouseId == command.warehouseId
              && order.status == Pending && order.currency == "RUB" && order.items == command.items
              && order.totalAmountMinor == UnitTotal(command.items)
              && order.createdAt == now && order.updatedAt == now
  {
    AcceptableIff(command);
  }

  function PayloadCommand(p: CreatedPayload): CreateCommand {
    CreateCommand(p.customerId, p.warehouseId, p.items)
  }

  predicate ValidPayload(p: CreatedPayload) {
    && p.currency == CURRENCY_RUB
    && Acceptable(PayloadCommand(p))
    && p.totalAmountMinor == Sum(p.items)
  }

  lemma ValidPayloadIff(p: CreatedPayload)
    ensures ValidPayload(p)
            <==> && p.currency == "RUB" && Proper(CreateCommand(p.customerId, p.warehouseId, p.items))
                 && p.totalAmountMinor == UnitTotal(p.items)
  {
    AcceptableIff(PayloadCommand(p));
  }

  method ValidatePayload(p: CreatedPayload) returns (ok: bool)
    ensures ok <==> ValidPayload(p)
    ensures ok <==> && p.currency == "RUB" && Proper(CreateCommand(p.customerId, p.warehouseId, p.items))
                    && p.totalAmountMinor == UnitTotal(p.items)
  {
    ValidPayloadIff(p);
    if p.currency != CURRENCY_RUB {
      return false;
    }
    var total := Validate(PayloadCommand(p));
    return total.Success? && total.value == p.totalAmountMinor;
  }
}
