/** What a paid storefront invoice does to the storefront's counters and stock
    (btpay/storefront/fulfillment.py, btpay/storefront/models.py), once per invoice. */
module Fulfillment {
  import opened Invoicing

  /** A row id out of the metadata: absent, not a number, or a number. */
  datatype Ref = NoRef | BadRef | Ref(id: int)

  datatype Source = SingleItem | Donation | Cart | OtherSource

  /** A cart entry; the quantity is None if it is not a number. */
  datatype CartEntry = CartEntry(item: Ref, quantity: Quantity)

  datatype Quantity = NotANumber | Quantity(n: int)

  /** The storefront part of an invoice's metadata. */
  datatype Meta = Meta(source: Source, storefront: Ref, item: Ref, cart: seq<CartEntry>, fulfilled: bool)

  datatype Counters = Counters(totalOrders: int, totalRevenue: real)

  /** The stored storefronts, and the stock of the stored items. */
  datatype ShopRows = ShopRows(storefronts: map<int, Counters>, stock: map<int, int>)

  // ---- Stock ----------------------------------------------------------------

  /** `decrement_inventory`; negative stock is unlimited. */
  function Decremented(stock: map<int, int>, item: int): map<int, int> {
    if item in stock && stock[item] > 0 then stock[item := stock[item] - 1] else stock
  }

  function DecrementedBy(stock: map<int, int>, item: int, qty: int): map<int, int>
    decreases qty
  {
    if qty <= 0 then stock else DecrementedBy(Decremented(stock, item), item, qty - 1)
  }

  /** What stock is left when so much is asked of it. */
  function Left(stock: int, asked: int): int {
    if stock < 0 || asked <= 0 then stock else if stock > asked then stock - asked else 0
  }

  /** The loop takes each unit that is there from limited stock and none from unlimited. */
  lemma {:induction false} DecrementedByTakes(stock: map<int, int>, item: int, qty: int)
    ensures DecrementedBy(stock, item, qty).Keys == stock.Keys
    ensures forall i :: i in stock ==>
        DecrementedBy(stock, item, qty)[i] == if i == item then Left(stock[i], qty) else stock[i]
    decreases qty
  {
    if qty > 0 {
      DecrementedByTakes(Decremented(stock, item), item, qty - 1);
    }
  }

  datatype StockResult = StockResult(stock: map<int, int>, ok: bool)

  /** The cart loop: items that are gone are skipped, entries that do not convert raise. */
  function CartTaken(stock: map<int, int>, cart: seq<CartEntry>): StockResult
    decreases |cart|
  {
    if cart == [] then StockResult(stock, true)
    else if cart[0].item.BadRef? then StockResult(stock, false)
    else if cart[0].item.NoRef? || cart[0].item.id !in stock then CartTaken(stock, cart[1..])
    else if cart[0].quantity.NotANumber? then StockResult(stock, false)
    else CartTaken(DecrementedBy(stock, cart[0].item.id, cart[0].quantity.n), cart[1..])
  }

  function StockTaken(stock: map<int, int>, meta: Meta): StockResult {
    match meta.source
    case SingleItem =>
      if meta.item.BadRef? then StockResult(stock, false)
      else if meta.item.NoRef? || meta.item.id == 0 then StockResult(stock, true)
      else StockResult(Decremented(stock, meta.item.id), true)
    case Cart => CartTaken(stock, meta.cart)
    case _ => StockResult(stock, true)
  }

  // ---- Fulfilment -----------------------------------------------------------

  datatype Fulfilled = Fulfilled(meta: Meta, shop: ShopRows, ok: bool)

  /** `fulfill_storefront_invoice`: counters first, then stock, then the flag. */
  function AfterFulfil(meta: Meta, amountPaid: real, shop: ShopRows): Fulfilled {
    if meta.source.OtherSource? || meta.fulfilled then Fulfilled(meta, shop, true)
    else if meta.storefront.BadRef? then Fulfilled(meta, shop, false)
    else if meta.storefront.NoRef? || meta.storefront.id !in shop.storefronts then Fulfilled(meta, shop, true)
    else
      var sf := shop.storefronts[meta.storefront.id];
      var counted := shop.storefronts[meta.storefront.id := Counters(sf.totalOrders + 1, sf.totalRevenue + amountPaid)];
      var taken := StockTaken(shop.stock, meta);
      Fulfilled(if taken.ok then meta.(fulfilled := true) else meta, ShopRows(counted, taken.stock), taken.ok)
  }

  class Shop {
    var storefronts: map<int, Counters>
    var stock: map<int, int>

    function Rows(): ShopRows
      reads this
    {
      ShopRows(storefronts, stock)
    }

    constructor (storefronts: map<int, Counters>, stock: map<int, int>)
      ensures Rows() == ShopRows(storefronts, stock)
    {
      this.storefronts, this.stock := storefronts, stock;
    }

    method DecrementInventory(item: int)
      modifies this`stock
      ensures stock == Decremented(old(stock), item)
    {
      if item in stock && stock[item] > 0 {
        stock := stock[item := stock[item] - 1];
      }
    }

    /** The inner loop: one unit at a time. */
    method TakeUnits(item: int, qty: int)
      modifies this`stock
      ensures stock == DecrementedBy(old(stock), item, qty)
    {
      var left := qty;
      while left > 0
        invariant DecrementedBy(stock, item, left) == DecrementedBy(old(stock), item, qty)
        decreases left
      {
        DecrementInventory(item);
        left := left - 1;
      }
    }

    method TakeCart(cart: seq<CartEntry>) returns (ok: bool)
      modifies this`stock
      ensures StockResult(stock, ok) == CartTaken(old(stock), cart)
    {
      hide DecrementedBy;
      for i := 0 to |cart|
        invariant CartTaken(stock, cart[i..]) == CartTaken(old(stock), cart)
      {
        assert cart[i..][0] == cart[i] && cart[i..][1..] == cart[i + 1..];
        match cart[i].item
        case NoRef =>
        case BadRef => return false;
        case Ref(id) =>
          if id in stock {
            if cart[i].quantity.NotANumber? {
              return false;
            }
            TakeUnits(id, cart[i].quantity.n);
          }
      }
      return true;
    }

    /** Returns the new metadata, and whether it ended without raising. */
    method FulfillStorefrontInvoice(meta: Meta, amountPaid: real) returns (after: Meta, ok: bool)
      modifies this
      ensures Fulfilled(after, Rows(), ok) == AfterFulfil(meta, amountPaid, old(Rows()))
    {
      hide CartTaken;
      after, ok := meta, true;
      if meta.source.OtherSource? || meta.fulfilled {
        return;
      }
      match meta.storefront
      case BadRef => return meta, false;
      case NoRef => return;
      case Ref(id) =>
        if id !in storefronts {
          return;
        }
        var sf := storefronts[id];
        storefronts := storefronts[id := Counters(sf.totalOrders + 1, sf.totalRevenue + amountPaid)];
        if meta.source.SingleItem? {
          if meta.item.BadRef? {
            return meta, false;
          }
          if meta.item.Ref? && meta.item.id != 0 {
            DecrementInventory(meta.item.id);
          }
        } else if meta.source.Cart? {
          ok := TakeCart(meta.cart);
          if !ok {
            return;
          }
        }
        after := meta.(fulfilled := true);
    }
  }

  // ---- What fulfilling takes ------------------------------------------------

  /** An entry that does not convert, in a shop with these items. */
  predicate EntryRaises(items: set<int>, entry: CartEntry) {
    entry.item.BadRef? || (entry.item.Ref? && entry.item.id in items && entry.quantity.NotANumber?)
  }

  predicate CartRaises(items: set<int>, cart: seq<CartEntry>) {
    cart != [] && (EntryRaises(items, cart[0]) || CartRaises(items, cart[1..]))
  }

  /** Taking the items raises after the counters are written. */
  predicate Raises(items: set<int>, meta: Meta) {
    (meta.source.SingleItem? && meta.item.BadRef?) || (meta.source.Cart? && CartRaises(items, meta.cart))
  }

  /** An invoice that one of these storefronts sold. */
  predicate SoldBy(storefronts: set<int>, meta: Meta) {
    !meta.source.OtherSource? && meta.storefront.Ref? && meta.storefront.id in storefronts
  }

  function Asked(quantity: Quantity): nat {
    if quantity.Quantity? && quantity.n > 0 then quantity.n else 0
  }

  /** How much of an item a cart asks for, up to the first entry that does not convert. */
  function CartDemand(items: set<int>, cart: seq<CartEntry>, item: int): nat {
    if cart == [] || EntryRaises(items, cart[0]) then 0
    else (if cart[0].item == Ref(item) then Asked(cart[0].quantity) else 0) + CartDemand(items, cart[1..], item)
  }

  function Demand(items: set<int>, meta: Meta, item: int): nat {
    match meta.source
    case SingleItem => if meta.item == Ref(item) && item != 0 then 1 else 0
    case Cart => CartDemand(items, meta.cart, item)
    case _ => 0
  }

  /** The cart loop raises exactly if an entry does not convert, and takes from each item what
      the entries before that ask of it. */
  lemma {:induction false} CartTakes(stock: map<int, int>, cart: seq<CartEntry>)
    ensures var r := CartTaken(stock, cart);
      && (r.ok <==> !CartRaises(stock.Keys, cart))
      && r.stock.Keys == stock.Keys
      && forall i :: i in stock ==> r.stock[i] == Left(stock[i], CartDemand(stock.Keys, cart, i))
    decreases |cart|
  {
    hide DecrementedBy;
    if cart == [] || EntryRaises(stock.Keys, cart[0]) {
      forall i | i in stock ensures Left(stock[i], 0) == stock[i] {
      }
    } else {
      var c, rest := cart[0], cart[1..];
      if c.item.Ref? && c.item.id in stock {
        DecrementedByTakes(stock, c.item.id, c.quantity.n);
        var after := DecrementedBy(stock, c.item.id, c.quantity.n);
        CartTakes(after, rest);
        hide Left;
        forall i | i in stock
          ensures Left(after[i], CartDemand(stock.Keys, rest, i)) == Left(stock[i], CartDemand(stock.Keys, cart, i))
        {
          TakenThenLeft(stock[i], c.quantity.n, CartDemand(stock.Keys, rest, i));
        }
      } else {
        CartTakes(stock, rest);
      }
    }
  }

  lemma TakenThenLeft(stock: int, n: int, rest: nat)
    ensures Left(Left(stock, n), rest) == Left(stock, (if n > 0 then n else 0) + rest)
  {
  }

  lemma StockTakes(stock: map<int, int>, meta: Meta)
    ensures var r := StockTaken(stock, meta);
      && r.stock.Keys == stock.Keys && (r.ok <==> !Raises(stock.Keys, meta))
      && forall i :: i in stock ==> r.stock[i] == Left(stock[i], Demand(stock.Keys, meta, i))
  {
    CartTakes(stock, meta.cart);
    hide CartTaken, CartRaises, CartDemand;
  }

  /** All that fulfilling does: if a storefront of the shop sold the invoice and it is not
      marked, the storefront is credited and the items are taken, and the invoice is marked
      exactly if nothing raises. */
  lemma FulfilExactly(meta: Meta, amountPaid: real, shop: ShopRows)
    ensures var f := AfterFulfil(meta, amountPaid, shop);
      var acts := !meta.fulfilled && SoldBy(shop.storefronts.Keys, meta);
      && f.meta == meta.(fulfilled := meta.fulfilled || (acts && !Raises(shop.stock.Keys, meta)))
      && f.shop.storefronts.Keys == shop.storefronts.Keys && f.shop.stock.Keys == shop.stock.Keys
      && (forall x :: x in shop.storefronts ==>
            f.shop.storefronts[x] == if acts && meta.storefront == Ref(x)
              then Counters(shop.storefronts[x].totalOrders + 1, shop.storefronts[x].totalRevenue + amountPaid)
              else shop.storefronts[x])
      && (forall i :: i in shop.stock ==>
            f.shop.stock[i] == if acts then Left(shop.stock[i], Demand(shop.stock.Keys, meta, i)) else shop.stock[i])
  {
    StockTakes(shop.stock, meta);
    hide StockTaken, Raises, Demand, Left;
  }

  /** Fulfilling a storefront invoice for the first time counts it in any case, and marks it
      exactly if nothing in its metadata fails to convert. Unmarked, it is counted again at
      the next credit. */
  lemma MarkedExactly(meta: Meta, amountPaid: real, shop: ShopRows)
    requires !meta.fulfilled && SoldBy(shop.storefronts.Keys, meta)
    ensures var f := AfterFulfil(meta, amountPaid, shop);
      && f.shop.storefronts[meta.storefront.id].totalOrders == shop.storefronts[meta.storefront.id].totalOrders + 1
      && (f.meta.fulfilled <==> !Raises(shop.stock.Keys, meta))
      && forall again :: AfterFulfil(f.meta, again, f.shop).shop.storefronts[meta.storefront.id].totalOrders
           == shop.storefronts[meta.storefront.id].totalOrders + if Raises(shop.stock.Keys, meta) then 2 else 1
  {
    StockTakes(shop.stock, meta);
    hide StockTaken, Raises;
  }

  // ---- Credits over many invoices -------------------------------------------

  /** The invoices with their metadata, the shop, and, for the record, every credit that left
      an invoice paid with what it had collected by then. */
  datatype World = World(ledgers: map<int, Ledger>, metas: map<int, Meta>, shop: ShopRows, sales: seq<Sale>)

  datatype Sale = Sale(invoice: int, collected: real)

  datatype Credit = Credit(invoice: int, amount: real)

  predicate Sold(sales: seq<Sale>, invoice: int) {
    sales != [] && (sales[|sales| - 1].invoice == invoice || Sold(sales[..|sales| - 1], invoice))
  }

  /** `_credit_invoice`: fulfilment runs after every credit that leaves the invoice paid. */
  function AfterCredit(w: World, gift: real, c: Credit): World
    requires c.invoice in w.ledgers && c.invoice in w.metas
  {
    var l := Credited(w.ledgers[c.invoice], gift, c.amount);
    var credited := w.(ledgers := w.ledgers[c.invoice := l]);
    if l.status != Paid then credited
    else
      var f := AfterFulfil(w.metas[c.invoice], l.amountPaid, w.shop);
      credited.(metas := w.metas[c.invoice := f.meta], shop := f.shop,
                sales := w.sales + [Sale(c.invoice, l.amountPaid)])
  }

  function AfterCredits(w: World, gift: real, credits: seq<Credit>): World
    requires w.ledgers.Keys == w.metas.Keys && forall i :: 0 <= i < |credits| ==> credits[i].invoice in w.ledgers
    decreases |credits|
  {
    if credits == [] then w else AfterCredits(AfterCredit(w, gift, credits[0]), gift, credits[1..])
  }

  // ---- Exactly once ---------------------------------------------------------

  /** Whether a sale after the earlier ones is one to count: a storefront sold the invoice, it
      was not marked at the start, and it is paid for the first time or its metadata raises. */
  predicate Effective(start: World, earlier: seq<Sale>, s: Sale) {
    s.invoice in start.metas
    && var meta := start.metas[s.invoice];
       && SoldBy(start.shop.storefronts.Keys, meta) && !meta.fulfilled
       && (Sold(earlier, s.invoice) ==> Raises(start.shop.stock.Keys, meta))
  }

  predicate EffectiveAt(start: World, earlier: seq<Sale>, s: Sale, storefront: int) {
    Effective(start, earlier, s) && start.metas[s.invoice].storefront == Ref(storefront)
  }

  function OrdersOf(start: World, sales: seq<Sale>, storefront: int): int {
    if sales == [] then 0
    else
      var earlier, last := sales[..|sales| - 1], sales[|sales| - 1];
      OrdersOf(start, earlier, storefront) + if EffectiveAt(start, earlier, last, storefront) then 1 else 0
  }

  function RevenueOf(start: World, sales: seq<Sale>, storefront: int): real {
    if sales == [] then 0.0
    else
      var earlier, last := sales[..|sales| - 1], sales[|sales| - 1];
      RevenueOf(start, earlier, storefront)
          + if EffectiveAt(start, earlier, last, storefront) then last.collected else 0.0
  }

  function DemandOf(start: World, sales: seq<Sale>, item: int): nat {
    if sales == [] then 0
    else
      var earlier, last := sales[..|sales| - 1], sales[|sales| - 1];
      DemandOf(start, earlier, item)
          + if Effective(start, earlier, last)
            then Demand(start.shop.stock.Keys, start.metas[last.invoice], item) else 0
  }

  ghost predicate CountedOnce(start: World, w: World, storefront: int) {
    storefront in start.shop.storefronts && storefront in w.shop.storefronts ==>
      && w.shop.storefronts[storefront].totalOrders
           == start.shop.storefronts[storefront].totalOrders + OrdersOf(start, w.sales, storefront)
      && w.shop.storefronts[storefront].totalRevenue
           == start.shop.storefronts[storefront].totalRevenue + RevenueOf(start, w.sales, storefront)
  }

  ghost predicate TakenOnce(start: World, w: World, item: int) {
    item in start.shop.stock && item in w.shop.stock ==>
      w.shop.stock[item] == Left(start.shop.stock[item], DemandOf(start, w.sales, item))
  }

  ghost predicate SameRows(start: World, w: World) {
    && w.ledgers.Keys == w.metas.Keys == start.metas.Keys
    && w.shop.storefronts.Keys == start.shop.storefronts.Keys && w.shop.stock.Keys == start.shop.stock.Keys
  }

  /** The invoice is marked if it was, or if it was sold and nothing raised. */
  ghost predicate MarkedIfSold(start: World, w: World, id: int) {
    id in w.metas && id in start.metas ==>
      var meta := start.metas[id];
      w.metas[id] == meta.(fulfilled := meta.fulfilled || (&& SoldBy(start.shop.storefronts.Keys, meta)
                                                           && !Raises(start.shop.stock.Keys, meta)
                                                           && Sold(w.sales, id)))
  }

  /** The shop's state is explained by the effective sales. */
  ghost predicate Explained(start: World, w: World) {
    && SameRows(start, w)
    && (forall id :: MarkedIfSold(start, w, id))
    && (forall storefront :: CountedOnce(start, w, storefront))
    && (forall item :: TakenOnce(start, w, item))
  }

  lemma StartExplained(start: World)
    requires start.sales == [] && start.ledgers.Keys == start.metas.Keys
    ensures Explained(start, start)
  {
    hide Raises, SoldBy;
  }

  /** An unpaid credit changes the ledgers only. */
  lemma UnpaidExplained(start: World, w: World, gift: real, c: Credit)
    requires Explained(start, w) && c.invoice in w.ledgers
    requires Credited(w.ledgers[c.invoice], gift, c.amount).status != Paid
    ensures Explained(start, AfterCredit(w, gift, c))
  {
    var after := AfterCredit(w, gift, c);
    hide Credited, Sold, SoldBy, Raises, Left, OrdersOf, RevenueOf, DemandOf, AfterCredit;
    assert after.sales == w.sales && after.shop == w.shop && after.metas == w.metas by {
      UnpaidKeeps(w, gift, c);
    }
    forall id ensures MarkedIfSold(start, after, id) {
      assert MarkedIfSold(start, w, id);
    }
    forall storefront ensures CountedOnce(start, after, storefront) {
      assert CountedOnce(start, w, storefront);
    }
    forall item ensures TakenOnce(start, after, item) {
      assert TakenOnce(start, w, item);
    }
  }

  lemma UnpaidKeeps(w: World, gift: real, c: Credit)
    requires c.invoice in w.ledgers && c.invoice in w.metas
    requires Credited(w.ledgers[c.invoice], gift, c.amount).status != Paid
    ensures var after := AfterCredit(w, gift, c);
      after.sales == w.sales && after.shop == w.shop && after.metas == w.metas && after.ledgers.Keys == w.ledgers.Keys
  {
    hide Credited;
  }

  lemma SaleAppend(start: World, sales: seq<Sale>, s: Sale, x: int)
    ensures OrdersOf(start, sales + [s], x)
         == OrdersOf(start, sales, x) + if EffectiveAt(start, sales, s, x) then 1 else 0
    ensures RevenueOf(start, sales + [s], x)
         == RevenueOf(start, sales, x) + if EffectiveAt(start, sales, s, x) then s.collected else 0.0
    ensures DemandOf(start, sales + [s], x)
         == DemandOf(start, sales, x)
              + if Effective(start, sales, s) then Demand(start.shop.stock.Keys, start.metas[s.invoice], x) else 0
    ensures Sold(sales + [s], x) <==> s.invoice == x || Sold(sales, x)
  {
    hide Effective, EffectiveAt, Demand;
    assert (sales + [s])[..|sales|] == sales;
  }

  /** What is asked of the metadata does not depend on the mark. */
  lemma UnmarkedAlike(storefronts: set<int>, items: set<int>, a: Meta, b: Meta, item: int)
    requires b == a.(fulfilled := b.fulfilled)
    ensures SoldBy(storefronts, b) == SoldBy(storefronts, a) && Raises(items, b) == Raises(items, a)
    ensures Demand(items, b, item) == Demand(items, a, item)
  {
    hide CartRaises, CartDemand;
  }

  /** Fulfilling acts exactly if the sale is effective. */
  lemma ActsIfEffective(start: World, w: World, sale: Sale)
    requires SameRows(start, w) && MarkedIfSold(start, w, sale.invoice) && sale.invoice in w.metas
    ensures !w.metas[sale.invoice].fulfilled && SoldBy(w.shop.storefronts.Keys, w.metas[sale.invoice])
      <==> Effective(start, w.sales, sale)
  {
    UnmarkedAlike(w.shop.storefronts.Keys, {}, start.metas[sale.invoice], w.metas[sale.invoice], 0);
    hide SoldBy, Raises, Sold;
  }

  lemma PaidShape(w: World, gift: real, c: Credit)
    requires c.invoice in w.ledgers && c.invoice in w.metas
    requires Credited(w.ledgers[c.invoice], gift, c.amount).status == Paid
    ensures var after := AfterCredit(w, gift, c);
      var collected := Credited(w.ledgers[c.invoice], gift, c.amount).amountPaid;
      var f := AfterFulfil(w.metas[c.invoice], collected, w.shop);
      && after.ledgers.Keys == w.ledgers.Keys && after.metas == w.metas[c.invoice := f.meta] && after.shop == f.shop
      && after.sales == w.sales + [Sale(c.invoice, collected)]
  {
    hide Credited, AfterFulfil;
  }

  /** A credit that leaves the invoice paid is counted if it is effective, and marks it then
      if nothing raises. */
  lemma PaidExplained(start: World, w: World, gift: real, c: Credit)
    requires Explained(start, w) && c.invoice in w.ledgers
    requires Credited(w.ledgers[c.invoice], gift, c.amount).status == Paid
    ensures Explained(start, AfterCredit(w, gift, c))
  {
    var id, collected := c.invoice, Credited(w.ledgers[c.invoice], gift, c.amount).amountPaid;
    var after, sale := AfterCredit(w, gift, c), Sale(id, collected);
    hide Credited, AfterCredit, AfterFulfil, Sold, SoldBy, Raises, Demand, Left;
    hide OrdersOf, RevenueOf, DemandOf, Effective;
    PaidShape(w, gift, c);
    assert MarkedIfSold(start, w, id);
    ActsIfEffective(start, w, sale);
    FulfilExactly(w.metas[id], collected, w.shop);
    forall x ensures CountedOnce(start, after, x) {
      assert CountedOnce(start, w, x);
      SaleAppend(start, w.sales, sale, x);
    }
    forall x ensures TakenOnce(start, after, x) {
      assert TakenOnce(start, w, x);
      SaleAppend(start, w.sales, sale, x);
      UnmarkedAlike({}, w.shop.stock.Keys, start.metas[id], w.metas[id], x);
      if x in start.shop.stock {
        LeftLeft(start.shop.stock[x], DemandOf(start, w.sales, x), Demand(w.shop.stock.Keys, w.metas[id], x));
      }
    }
    forall x ensures MarkedIfSold(start, after, x) {
      MarkedNext(start, w, sale, x);
    }
  }

  lemma MarkedNext(start: World, w: World, sale: Sale, x: int)
    requires SameRows(start, w) && MarkedIfSold(start, w, x) && sale.invoice in w.metas
    ensures var meta := AfterFulfil(w.metas[sale.invoice], sale.collected, w.shop).meta;
      MarkedIfSold(start, w.(metas := w.metas[sale.invoice := meta], sales := w.sales + [sale]), x)
  {
    hide AfterFulfil, Sold, SoldBy, Raises, Demand, Left, OrdersOf, RevenueOf, DemandOf;
    SaleAppend(start, w.sales, sale, x);
    if x == sale.invoice {
      FulfilExactly(w.metas[x], sale.collected, w.shop);
      UnmarkedAlike(w.shop.storefronts.Keys, w.shop.stock.Keys, start.metas[x], w.metas[x], 0);
    }
  }

  lemma LeftLeft(stock: int, a: nat, b: nat)
    ensures Left(Left(stock, a), b) == Left(stock, a + b)
  {
  }

  lemma CreditExplained(start: World, w: World, gift: real, c: Credit)
    requires Explained(start, w) && c.invoice in w.ledgers
    ensures Explained(start, AfterCredit(w, gift, c))
  {
    hide Explained, AfterCredit, Credited;
    if Credited(w.ledgers[c.invoice], gift, c.amount).status == Paid {
      PaidExplained(start, w, gift, c);
    } else {
      UnpaidExplained(start, w, gift, c);
    }
  }

  /** However many credits reach however many invoices, whatever their metadata: every
      storefront's orders and revenue are those of its effective sales, and stock is short
      by what these asked for, never below nothing. */
  lemma {:induction false} ExactlyOnce(start: World, w: World, gift: real, credits: seq<Credit>)
    requires Explained(start, w) && forall i :: 0 <= i < |credits| ==> credits[i].invoice in w.ledgers
    ensures Explained(start, AfterCredits(w, gift, credits))
    decreases |credits|
  {
    hide AfterCredit, CountedOnce, TakenOnce, MarkedIfSold;
    if credits != [] {
      CreditExplained(start, w, gift, credits[0]);
      ExactlyOnce(start, AfterCredit(w, gift, credits[0]), gift, credits[1..]);
    }
  }

  /** How many of the sales are effective ones of the invoice, and how many are of it at all. */
  function TimesCounted(start: World, sales: seq<Sale>, invoice: int): nat {
    if sales == [] then 0
    else
      var earlier, last := sales[..|sales| - 1], sales[|sales| - 1];
      TimesCounted(start, earlier, invoice)
          + if last.invoice == invoice && Effective(start, earlier, last) then 1 else 0
  }

  function TimesPaid(sales: seq<Sale>, invoice: int): nat {
    if sales == [] then 0
    else TimesPaid(sales[..|sales| - 1], invoice) + if sales[|sales| - 1].invoice == invoice then 1 else 0
  }

  /** So an invoice of a storefront is counted once if it is ever paid and its metadata
      converts, and otherwise at every credit that leaves it paid. */
  lemma {:induction false} CountedExactly(start: World, sales: seq<Sale>, invoice: int)
    requires invoice in start.metas
    ensures var meta := start.metas[invoice];
      TimesCounted(start, sales, invoice) ==
        if !SoldBy(start.shop.storefronts.Keys, meta) || meta.fulfilled then 0
        else if Raises(start.shop.stock.Keys, meta) then TimesPaid(sales, invoice)
        else if Sold(sales, invoice) then 1
        else 0
  {
    hide SoldBy, Raises;
    if sales != [] {
      CountedExactly(start, sales[..|sales| - 1], invoice);
    }
  }
}
