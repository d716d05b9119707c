/** Category: an ordered list of products with a guarded append, its read views,
    and the two counters the class keeps for the whole process. */
module Categories {
  import opened Basics
  import opened Text
  import opened Products

  /** The class attributes `Category.category_count` and `Category.product_count`,
      kept in one object that every operation changing them receives. */
  class Registry {
    var categoryCount: int
    var productCount: int

    /** Both counters start at zero when the class is defined. */
    constructor ()
      ensures categoryCount == 0 && productCount == 0
    {
      categoryCount, productCount := 0, 0;
    }
  }

  /** The sum of the quantities of `ps`. */
  function TotalQuantity(ps: seq<Product>): int
    reads ps
  {
    if ps == [] then 0 else ps[0].quantity + TotalQuantity(ps[1..])
  }

  /** The sum of the prices of `ps`. */
  function TotalPrice(ps: seq<Product>): real
    reads ps
  {
    if ps == [] then 0.0 else ps[0].price + TotalPrice(ps[1..])
  }

  /** `str()` of every product of `ps`, in order. */
  function Texts(ps: seq<Product>): (r: seq<string>)
    reads ps
    ensures |r| == |ps|
    ensures forall i | 0 <= i < |ps| :: r[i] == ps[i].Display()
  {
    if ps == [] then [] else [ps[0].Display()] + Texts(ps[1..])
  }

  /** Appending a product appends its text. */
  lemma TextsAppend(ps: seq<Product>, p: Product)
    ensures Texts(ps + [p]) == Texts(ps) + [p.Display()]
  {
    var l, r := Texts(ps + [p]), Texts(ps) + [p.Display()];
    assert |l| == |r|;
    forall i | 0 <= i < |l| ensures l[i] == r[i] {
      if i < |ps| {
        assert (ps + [p])[i] == ps[i];
      }
    }
  }

  /** Appending a product appends its text and adds its quantity and price to the totals. */
  lemma AppendFacts(ps: seq<Product>, p: Product)
    ensures Texts(ps + [p]) == Texts(ps) + [p.Display()]
    ensures TotalQuantity(ps + [p]) == TotalQuantity(ps) + p.quantity
    ensures TotalPrice(ps + [p]) == TotalPrice(ps) + p.price
  {
    TextsAppend(ps, p);
    TotalQuantityAppend(ps, p);
    TotalPriceAppend(ps, p);
  }

  /** The total quantity is never negative when no quantity is. */
  lemma {:induction false} TotalQuantityNonNegative(ps: seq<Product>)
    requires forall i | 0 <= i < |ps| :: ps[i].quantity >= 0
    ensures TotalQuantity(ps) >= 0
  {
    if ps != [] {
      TotalQuantityNonNegative(ps[1..]);
    }
  }

  /** Appending a product adds its quantity to the total. */
  lemma {:induction false} TotalQuantityAppend(ps: seq<Product>, p: Product)
    ensures TotalQuantity(ps + [p]) == TotalQuantity(ps) + p.quantity
  {
    if ps != [] {
      assert (ps + [p])[1..] == ps[1..] + [p];
      TotalQuantityAppend(ps[1..], p);
    }
  }

  /** Appending a product adds its price to the total. */
  lemma {:induction false} TotalPriceAppend(ps: seq<Product>, p: Product)
    ensures TotalPrice(ps + [p]) == TotalPrice(ps) + p.price
  {
    if ps != [] {
      assert (ps + [p])[1..] == ps[1..] + [p];
      TotalPriceAppend(ps[1..], p);
    }
  }

  /** The total price lies between |ps| times the lowest and |ps| times the highest price. */
  lemma {:induction false} TotalPriceBounds(ps: seq<Product>, lo: real, hi: real)
    requires forall i | 0 <= i < |ps| :: lo <= ps[i].price <= hi
    ensures |ps| as real * lo <= TotalPrice(ps) <= |ps| as real * hi
  {
    if ps != [] {
      TotalPriceBounds(ps[1..], lo, hi);
    }
  }

  /** The words between a category's name and its total quantity. */
  const TotalLabel := ", общее количество товаров: "

  class Category {
    var name: string
    var description: string
    var products: seq<Product>

    /** `Category(name, description, products)`: counts one more category and
        every product it starts with. */
    constructor (name: string, description: string, initial: seq<Product>, registry: Registry)
      modifies registry
      ensures this.name == name && this.description == description && products == initial
      ensures registry.categoryCount == old(registry.categoryCount) + 1
      ensures registry.productCount == old(registry.productCount) + |initial|
    {
      this.name := name;
      this.description := description;
      this.products := initial;
      new;
      registry.categoryCount := registry.categoryCount + 1;
      registry.productCount := registry.productCount + |initial|;
    }

    /** `middle_price()`: 0 for an empty category, the mean price otherwise. */
    function MiddlePrice(): (r: real)
      reads this, products
      ensures products == [] ==> r == 0.0
      ensures products != [] ==> r * |products| as real == TotalPrice(products)
    {
      if products == [] then 0.0 else TotalPrice(products) / |products| as real
    }

    /** `add_product(product)`: anything that is not a product is refused with
        TypeError and nothing changes; a product is appended and counted once. */
    method AddProduct(item: Operand, registry: Registry) returns (s: Status)
      modifies this`products, registry`productCount
      ensures item.Foreign? ==> s == Failure(NotAProductItem)
      ensures item.Foreign? ==> products == old(products) && registry.productCount == old(registry.productCount)
      ensures item.Prod? ==> s == Success && products == old(products) + [item.product]
      ensures item.Prod? ==> registry.productCount == old(registry.productCount) + 1
      ensures item.Prod? ==> Texts(products) == Texts(old(products)) + [item.product.Display()]
      ensures item.Prod? ==> TotalQuantity(products) == TotalQuantity(old(products)) + item.product.quantity
      ensures item.Prod? ==> TotalPrice(products) == TotalPrice(old(products)) + item.product.price
    {
      if item.Foreign? {
        return Failure(NotAProductItem);
      }
      var p := item.product;
      products := products + [p];
      registry.productCount := registry.productCount + 1;
      AppendFacts(old(products), p);
      s := Success;
    }

    /** The `products` property: a fresh list of the products' texts in insertion order. */
    function ProductTexts(): (r: seq<string>)
      reads this, products
      ensures |r| == |products|
      ensures forall i | 0 <= i < |products| :: r[i] == products[i].Display()
    {
      Texts(products)
    }

    /** `str(category)`: the name and the label, then the total quantity of its
        products, whose digits read back as that total, then the unit. */
    function Display(): (r: string)
      reads this, products
      ensures var h := name + TotalLabel;
        && |h| < |r| - |Unit|
        && r[..|h|] == h
        && r[|r| - |Unit|..] == Unit
        && (TotalQuantity(products) < 0 <==> r[|h|] == '-')
        && (TotalQuantity(products) >= 0 ==>
              (forall k | |h| <= k < |r| - |Unit| :: IsDigit(r[k]))
              && DigitsValue(r[|h|..|r| - |Unit|]) == TotalQuantity(products))
    {
      var h := name + TotalLabel;
      var q := IntToString(TotalQuantity(products));
      var r := h + q + Unit;
      assert r[..|h|] == h;
      assert r[|r| - |Unit|..] == Unit;
      assert r[|h|..|r| - |Unit|] == q;
      r
    }
  }

  /** The mean price lies between the lowest and the highest price in the category. */
  lemma MiddlePriceBounds(c: Category, lo: real, hi: real)
    requires c.products != []
    requires forall i | 0 <= i < |c.products| :: lo <= c.products[i].price <= hi
    ensures lo <= c.MiddlePrice() <= hi
  {
    TotalPriceBounds(c.products, lo, hi);
    var n := |c.products| as real;
    assert c.MiddlePrice() * n == TotalPrice(c.products);
  }

  /** With every price kept non-negative by the setter, so is the mean price. */
  lemma MiddlePriceNonNegative(c: Category)
    requires forall i | 0 <= i < |c.products| :: c.products[i].Valid()
    ensures c.MiddlePrice() >= 0.0
  {
    if c.products != [] {
      MiddlePriceBounds(c, 0.0, MaxPrice(c.products));
    }
  }

  /** The highest price in a non-empty list. */
  function MaxPrice(ps: seq<Product>): (m: real)
    requires ps != []
    reads ps
    ensures forall i | 0 <= i < |ps| :: ps[i].price <= m
    ensures exists i | 0 <= i < |ps| :: ps[i].price == m
  {
    if |ps| == 1 then ps[0].price
    else
      var rest := MaxPrice(ps[1..]);
      if ps[0].price >= rest then ps[0].price else rest
  }
}
