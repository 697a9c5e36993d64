/** A stock item of api/models/Inventory.ts: a document whose quantity,
    unit cost, batch number and restock date the item's own methods change
    in place before saving it. Quantities are whole units and costs whole
    kuruş; the save stands for the schema's required and lower-bound
    checks, and the restock moment is a parameter. */
module Inventory {
  import opened Outcomes
  import opened Text

  datatype StockOperation = Add | Subtract

  datatype StockError =
    | NegativeQuantity   // the method's own guard
    | ValidationFailed   // a schema bound refused the save

  /** The quantity after a change of `change` units: `add` adds it, any
      other operation subtracts it. */
  function Adjusted(quantity: int, change: int, op: StockOperation): (q: int)
    ensures op == Add ==> q - quantity == change
    ensures op == Subtract ==> quantity - q == change
  {
    match op
    case Add => quantity + change
    case Subtract => quantity - change
  }

  /** Adding an amount and then subtracting it again restores the quantity. */
  lemma AddThenSubtractRestores(quantity: int, change: int)
    ensures Adjusted(Adjusted(quantity, change, Add), change, Subtract) == quantity
    ensures Adjusted(Adjusted(quantity, change, Subtract), change, Add) == quantity
  {
  }

  /** The stock value of `quantity` units at `unitCost` each. */
  function StockValue(quantity: int, unitCost: int): (v: int)
    ensures quantity >= 0 && unitCost >= 0 ==> v >= 0
    ensures quantity == 0 || unitCost == 0 ==> v == 0
  {
    quantity * unitCost
  }

  /** The value grows by the restocked units' value when the cost stays. */
  lemma StockValueOfRestock(quantity: int, amount: int, unitCost: int)
    ensures StockValue(quantity + amount, unitCost) == StockValue(quantity, unitCost) + StockValue(amount, unitCost)
  {
  }

  /** Stock is low when it has fallen to the reorder level or below. */
  predicate LowStock(quantity: int, minQuantity: int) {
    quantity <= minQuantity
  }

  /** Taking stock away never clears the low-stock flag, and a quantity
      above the reorder level is never low. */
  lemma LowStockMonotone(quantity: int, fewer: int, minQuantity: int)
    requires fewer <= quantity
    ensures LowStock(quantity, minQuantity) ==> LowStock(fewer, minQuantity)
    ensures LowStock(quantity, minQuantity) <==> !(quantity > minQuantity)
  {
  }

  /** `if (x)` on an optional number: present and not zero. */
  predicate TruthyCost(x: Option<int>) {
    x.Some? && x.value != 0
  }

  /** `if (x)` on an optional string: present and not empty. */
  predicate TruthyText(x: Option<string>) {
    x.Some? && x.value != ""
  }

  class InventoryItem {
    var itemCode: string
    var itemName: string
    var quantity: int
    var minQuantity: int
    var unitCost: int
    var batchNumber: Option<string>
    var lastRestocked: Option<int>
    var isActive: bool

    /** The schema's checks: code and name are required, so neither may be
        empty, and quantity, reorder level and unit cost are all at least
        zero. */
    predicate SchemaValid()
      reads this
    {
      && itemCode != "" && itemName != ""
      && quantity >= 0 && minQuantity >= 0 && unitCost >= 0
    }

    /** A new document: code and name pass through their `trim` setters,
        so an all-white-space code or name leaves the document invalid. */
    constructor (itemCode: string, itemName: string, quantity: int, minQuantity: int, unitCost: int)
      ensures this.itemCode == Trim(itemCode) && this.itemName == Trim(itemName)
      ensures this.quantity == quantity && this.minQuantity == minQuantity && this.unitCost == unitCost
      ensures batchNumber == None && lastRestocked == None && isActive
      ensures SchemaValid() <==>
        && !(forall i :: 0 <= i < |itemCode| ==> IsWhitespace(itemCode[i]))
        && !(forall i :: 0 <= i < |itemName| ==> IsWhitespace(itemName[i]))
        && quantity >= 0 && minQuantity >= 0 && unitCost >= 0
    {
      this.itemCode := Trim(itemCode);
      this.itemName := Trim(itemName);
      this.quantity := quantity;
      this.minQuantity := minQuantity;
      this.unitCost := unitCost;
      this.batchNumber := None;
      this.lastRestocked := None;
      this.isActive := true;
    }

    /** The `totalValue` virtual: the value of the stock on hand, never
        negative for a document the schema accepts. */
    function TotalValue(): (v: int)
      reads this
      ensures v == StockValue(quantity, unitCost)
      ensures SchemaValid() ==> v >= 0
    {
      StockValue(quantity, unitCost)
    }

    /** The `isLowStock` virtual; an empty valid item is always low. */
    function IsLowStock(): (b: bool)
      reads this
      ensures b == LowStock(quantity, minQuantity)
      ensures SchemaValid() && quantity == 0 ==> b
    {
      LowStock(quantity, minQuantity)
    }

    /** `save()`: the schema's checks decide whether the document is
        written; nothing in it changes. */
    method Save() returns (r: Result<(), StockError>)
      ensures r.Success? <==> SchemaValid()
      ensures r.Failure? ==> r.error == ValidationFailed
    {
      if SchemaValid() {
        r := Success(());
      } else {
        r := Failure(ValidationFailed);
      }
    }

    /** `updateQuantity`: the change is applied to the document first; a
        negative result is then refused before any save, which leaves the
        changed quantity in the unsaved document; otherwise it is saved. */
    method UpdateQuantity(change: int, op: StockOperation) returns (r: Result<(), StockError>)
      modifies this`quantity
      ensures quantity == Adjusted(old(quantity), change, op)
      ensures quantity < 0 ==> r == Failure(NegativeQuantity)
      ensures quantity >= 0 ==> (r.Success? <==> SchemaValid())
      ensures r.Success? ==> quantity >= 0 && SchemaValid()
      ensures old(SchemaValid()) && quantity >= 0 ==> r.Success?
    {
      quantity := Adjusted(quantity, change, op);
      if quantity < 0 {
        return Failure(NegativeQuantity);
      }
      r := Save();
    }

    /** `restock`: the quantity grows by exactly `amount`, the restock date
        becomes `now`, the unit cost and batch number are replaced only by a
        truthy argument, the batch number passing through its `trim` setter,
        and the document is saved. */
    method Restock(amount: int, newUnitCost: Option<int>, newBatchNumber: Option<string>, now: int)
      returns (r: Result<(), StockError>)
      modifies this`quantity, this`lastRestocked, this`unitCost, this`batchNumber
      ensures quantity == old(quantity) + amount && lastRestocked == Some(now)
      ensures unitCost == if TruthyCost(newUnitCost) then newUnitCost.value else old(unitCost)
      ensures batchNumber == if TruthyText(newBatchNumber) then TrimOption(newBatchNumber) else old(batchNumber)
      ensures r.Success? <==> SchemaValid()
      ensures old(SchemaValid()) && amount >= 0 && (newUnitCost.Some? ==> newUnitCost.value >= 0) ==> r.Success?
    {
      quantity := quantity + amount;
      lastRestocked := Some(now);
      if TruthyCost(newUnitCost) {
        unitCost := newUnitCost.value;
      }
      if TruthyText(newBatchNumber) {
        batchNumber := TrimOption(newBatchNumber);
      }
      r := Save();
    }
  }
}
