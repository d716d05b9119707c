/** Product and its two subclasses, Smartphone and LawnGrass: construction,
    the guarded price, the display string and the `+` operator. */
module Products {
  import opened Basics
  import opened Text

  /** The concrete class of a product, `type(self)`. */
  datatype ProductClass = BaseClass | SmartphoneClass | LawnGrassClass

  /** The attributes each class adds to the four every product has. */
  datatype Details =
    | Plain
    | Phone(efficiency: string, model: string, memory: int, color: string)
    | Grass(country: string, germinationPeriod: string, color: string)
  {
    function Class(): ProductClass
    {
      match this
      case Plain => BaseClass
      case Phone(_, _, _, _) => SmartphoneClass
      case Grass(_, _, _) => LawnGrassClass
    }

    /** `self.__class__.__name__`, as printed when a product is created. */
    function ClassName(): (r: string)
      ensures Plain? <==> r == "Product"
      ensures Phone? <==> r == "Smartphone"
      ensures Grass? <==> r == "LawnGrass"
    {
      match Class()
      case BaseClass => "Product"
      case SmartphoneClass => "Smartphone"
      case LawnGrassClass => "LawnGrass"
    }

    /** What a subclass's `__str__` appends after the base text's " шт.". */
    function Suffix(): (r: string)
      ensures Plain? <==> r == []
      ensures !Plain? ==> |r| > 2 && r[..2] == ", "
    {
      match this
      case Plain => ""
      case Phone(_, model, memory, color) =>
        ", модель: " + model + ", память: " + IntToString(memory) + " ГБ, цвет: " + color
      case Grass(country, period, color) =>
        ", страна: " + country + ", срок прорастания: " + period + ", цвет: " + color
    }
  }

  /** A smartphone's text shows its memory: two smartphones of the same model
      and colour whose attributes read the same have the same memory. */
  lemma SuffixDeterminesMemory(a: Details, b: Details)
    requires a.Phone? && b.Phone? && a.model == b.model && a.color == b.color
    requires a.Suffix() == b.Suffix()
    ensures a.memory == b.memory
  {
    var head := ", модель: " + a.model + ", память: ";
    var tail := " ГБ, цвет: " + a.color;
    var m1, m2 := IntToString(a.memory), IntToString(b.memory);
    assert a.Suffix() == head + m1 + tail;
    assert b.Suffix() == head + m2 + tail;
    assert |m1| == |m2|;
    assert m1 == a.Suffix()[|head|..|head| + |m1|];
    assert m2 == b.Suffix()[|head|..|head| + |m2|];
    IntToStringInjective(a.memory, b.memory);
  }

  /** The unit that closes the base text and at which the subclasses split it. */
  const Unit := " шт."

  /** `Product.__str__` on the given attribute values; `int(price)` truncates. */
  function BaseText(name: string, price: real, quantity: int): string
  {
    name + Amounts(price, quantity) + Unit
  }

  /** The part of the base text between the name and the closing unit. */
  function Amounts(price: real, quantity: int): string
  {
    ", " + IntToString(Trunc(price)) + StockLabel + IntToString(quantity)
  }

  /** The words between the price and the quantity in the base text. */
  const StockLabel := " руб. Остаток: "

  /** The base text determines the whole roubles of the price and the quantity:
      two products with the same name and the same text have the same `int(price)`
      and the same quantity. */
  lemma BaseTextDeterminesStock(name: string, p1: real, q1: int, p2: real, q2: int)
    requires BaseText(name, p1, q1) == BaseText(name, p2, q2)
    ensures Trunc(p1) == Trunc(p2) && q1 == q2
  {
    StockParts(name, IntToString(Trunc(p1)), IntToString(q1), IntToString(Trunc(p2)), IntToString(q2));
    IntToStringInjective(Trunc(p1), Trunc(p2));
    IntToStringInjective(q1, q2);
  }

  /** In `name + (", " + d + StockLabel + e) + Unit`, a numeral string `d` and
      the text `e` are determined by the whole. */
  lemma StockParts(name: string, d1: string, e1: string, d2: string, e2: string)
    requires forall k | 0 <= k < |d1| :: IsNumeral(d1[k])
    requires forall k | 0 <= k < |d2| :: IsNumeral(d2[k])
    requires name + (", " + d1 + StockLabel + e1) + Unit == name + (", " + d2 + StockLabel + e2) + Unit
    ensures d1 == d2 && e1 == e2
  {
    var h := name + ", ";
    var t1, t2 := StockLabel + e1 + Unit, StockLabel + e2 + Unit;
    assert name + (", " + d1 + StockLabel + e1) + Unit == h + (d1 + t1);
    assert name + (", " + d2 + StockLabel + e2) + Unit == h + (d2 + t2);
    assert d1 + t1 == (h + (d1 + t1))[|h|..];
    assert d2 + t2 == (h + (d2 + t2))[|h|..];
    NumeralsThenLabel(d1, t1, d2, t2);
    Between(StockLabel, e1, e2, Unit);
  }

  /** Two strings that are a run of numerals followed by text starting with
      another character split the same way. */
  lemma NumeralsThenLabel(d1: string, t1: string, d2: string, t2: string)
    requires forall k | 0 <= k < |d1| :: IsNumeral(d1[k])
    requires forall k | 0 <= k < |d2| :: IsNumeral(d2[k])
    requires t1 != [] && !IsNumeral(t1[0]) && t2 != [] && !IsNumeral(t2[0])
    requires d1 + t1 == d2 + t2
    ensures d1 == d2 && t1 == t2
  {
    NumeralRunOf(d1, t1);
    NumeralRunOf(d2, t2);
    assert d1 == (d1 + t1)[..|d1|];
    assert d2 == (d2 + t2)[..|d2|];
    assert t1 == (d1 + t1)[|d1|..];
    assert t2 == (d2 + t2)[|d2|..];
  }

  /** The same text before and after determines what lies between. */
  lemma Between(a: string, x: string, y: string, b: string)
    requires a + x + b == a + y + b
    ensures x == y
  {
    assert x == (a + x + b)[|a|..|a| + |x|];
    assert y == (a + y + b)[|a|..|a| + |y|];
  }

  /** `str(product)` for each class: a subclass takes the base text up to its
      first " шт.", puts " шт." back and appends its own attributes. */
  function ProductText(details: Details, name: string, price: real, quantity: int): string
  {
    TextFrom(details, BaseText(name, price, quantity))
  }

  /** The text of a product of the given class whose base text is `base`. */
  function TextFrom(details: Details, base: string): string
  {
    if details.Plain? then base else SplitHead(base, Unit) + Unit + details.Suffix()
  }

  /** Whatever the name, the text of a product is a prefix of its base text
      (which ends with " шт.") followed by " шт." and the class's own attributes. */
  lemma TextFromShape(details: Details, x: string)
    ensures var r, tail := TextFrom(details, x + Unit), Unit + details.Suffix();
      && |tail| <= |r|
      && r[|r| - |tail|..] == tail
      && r[..|r| - |tail|] <= x + Unit
  {
    var base, tail := x + Unit, Unit + details.Suffix();
    var head := if details.Plain? then x else SplitHead(base, Unit);
    Tailed(head, tail);
    assert details.Plain? ==> head + tail == base;
    assert !details.Plain? ==> SplitHead(base, Unit) + Unit + details.Suffix() == head + tail;
  }

  lemma Tailed(head: string, tail: string)
    ensures (head + tail)[..|head|] == head && (head + tail)[|head|..] == tail
  {
  }

  predicate LacksLetterSha(s: string)
  {
    forall k | 0 <= k < |s| :: s[k] != 'ш'
  }

  /** The middle of the base text, between the name and the closing unit, holds no 'ш'. */
  lemma AmountsLackLetterSha(price: real, quantity: int)
    ensures |Amounts(price, quantity)| > 0 && Amounts(price, quantity)[0] == ','
    ensures LacksLetterSha(Amounts(price, quantity))
  {
    var d, q := IntToString(Trunc(price)), IntToString(quantity);
    var u := ", " + d + " руб. Остаток: " + q;
    forall k | 0 <= k < |u| ensures u[k] != 'ш' {
      if k < 2 {
        assert u[k] == ", "[k];
      } else if k < 2 + |d| {
        assert u[k] == d[k - 2] && IsNumeral(d[k - 2]);
      } else if k < 2 + |d| + 15 {
        assert u[k] == " руб. Остаток: "[k - 2 - |d|];
      } else {
        assert u[k] == q[k - 17 - |d|] && IsNumeral(q[k - 17 - |d|]);
      }
    }
  }

  /** In `name + u + " шт."`, where `u` starts with a comma and has no 'ш', the
      first " шт." is the closing one unless the name itself contains it. */
  lemma FirstUnitIsClosing(name: string, u: string)
    requires !Contains(name, Unit)
    requires |u| > 0 && u[0] == ',' && LacksLetterSha(u)
    ensures SplitHead(name + u + Unit, Unit) == name + u
  {
    var s := name + u + Unit;
    var k := |name| + |u|;
    forall i: nat | i < k
      ensures !OccursAt(s, Unit, i)
    {
      if i + |Unit| <= |name| {
        assert s[i..i + |Unit|] == name[i..i + |Unit|];
        assert !OccursAt(name, Unit, i);
      } else if i < |name| {
        assert s[|name|] == ',' && Unit[|name| - i] != ',';
        Mismatch(s, i, |name| - i);
      } else if i + 1 < k {
        assert s[i + 1] == u[i + 1 - |name|] && LacksLetterSha(u);
        Mismatch(s, i, 1);
      } else {
        assert s[i + 1] == ' ';
        Mismatch(s, i, 1);
      }
    }
    assert s[k..k + |Unit|] == Unit;
    SplitHeadAt(s, Unit, k);
    assert s[..k] == name + u;
  }

  /** One differing character rules out an occurrence of the unit. */
  lemma Mismatch(s: string, i: nat, j: nat)
    requires j < |Unit| && i + j < |s| && s[i + j] != Unit[j]
    ensures !OccursAt(s, Unit, i)
  {
    if i + |Unit| <= |s| {
      assert s[i..i + |Unit|][j] == s[i + j];
    }
  }

  /** Whenever the name does not contain " шт.", the text of a Smartphone or a
      LawnGrass is the base text followed by the class's own attributes. */
  lemma ProductTextExtendsBase(details: Details, name: string, price: real, quantity: int)
    ensures !Contains(name, Unit) ==>
      ProductText(details, name, price, quantity) == BaseText(name, price, quantity) + details.Suffix()
  {
    if !details.Plain? && !Contains(name, Unit) {
      AmountsLackLetterSha(price, quantity);
      FirstUnitIsClosing(name, Amounts(price, quantity));
    }
  }

  /** A product. The fields the source leaves public are fields here; `price`
      stands for the private `__price` that only the setter changes. */
  class Product {
    var name: string
    var description: string
    var price: real
    var quantity: int
    const details: Details

    /** The price is never negative. */
    ghost predicate Valid()
      reads this
    {
      price >= 0.0
    }

    /** The body of the constructors once the quantity check has passed. */
    constructor (details: Details, name: string, description: string, price: real, quantity: int, console: Console)
      requires quantity > 0
      modifies console
      ensures Valid()
      ensures this.details == details && this.name == name && this.description == description
      ensures this.quantity == quantity && this.price == (if price > 0.0 then price else 0.0)
      ensures console.lines == old(console.lines) + [Created(details.ClassName(), name, description, price, quantity)]
    {
      this.details := details;
      this.name := name;
      this.description := description;
      this.quantity := quantity;
      this.price := if price > 0.0 then price else 0.0;
      new;
      console.lines := console.lines + [Created(details.ClassName(), name, description, price, quantity)];
    }

    /** `Product(...)`, `Smartphone(...)` or `LawnGrass(...)`: a quantity of zero
        or less raises before anything is printed; otherwise one line with the
        raw arguments is printed and a non-positive price is stored as 0. */
    static method Create(details: Details, name: string, description: string, price: real, quantity: int, console: Console)
      returns (r: Result<Product>)
      modifies console
      ensures quantity <= 0 ==> r == Err(ZeroQuantity) && console.lines == old(console.lines)
      ensures quantity > 0 ==> r.Ok? && fresh(r.value) && r.value.Valid()
      ensures quantity > 0 ==> r.value.details == details && r.value.name == name
      ensures quantity > 0 ==> r.value.description == description && r.value.quantity == quantity
      ensures quantity > 0 ==> r.value.price == (if price > 0.0 then price else 0.0)
      ensures quantity > 0 ==>
        console.lines == old(console.lines) + [Created(details.ClassName(), name, description, price, quantity)]
    {
      if quantity <= 0 {
        return Err(ZeroQuantity);
      }
      var p := new Product(details, name, description, price, quantity, console);
      r := Ok(p);
    }

    /** The `price` setter: a positive value replaces the price; any other value
        is refused with a printed diagnostic and the price stays as it was. */
    method SetPrice(value: real, console: Console)
      modifies this`price, console
      ensures value > 0.0 ==> price == value && console.lines == old(console.lines)
      ensures value <= 0.0 ==> price == old(price) && console.lines == old(console.lines) + [Warning(PriceWarning)]
      ensures old(Valid()) ==> Valid()
    {
      if value <= 0.0 {
        console.lines := console.lines + [Warning(PriceWarning)];
      } else {
        price := value;
      }
    }

    /** `str(self)`: the base text for a plain product whatever its name, and
        for a name without " шт." the base text followed by the class's own
        attributes. */
    function Display(): (r: string)
      reads this
      ensures details.Plain? ==> r == BaseText(name, price, quantity)
      ensures !Contains(name, Unit) ==> r == BaseText(name, price, quantity) + details.Suffix()
    {
      ProductTextExtendsBase(details, name, price, quantity);
      ProductText(details, name, price, quantity)
    }
  }

  /** A right operand of `+` or an argument of `add_product`: a product of some
      class, or any value that is not a product. */
  datatype Operand = Prod(product: Product) | Foreign
  {
    function Objects(): set<object>
    {
      if Prod? then {product} else {}
    }
  }

  /** What one product's stock is worth. */
  function Worth(p: Product): real
    reads p
  {
    p.price * p.quantity as real
  }

  /** `a + b`: defined only for two products of exactly the same class, and then
      the worth of both stocks together. */
  function Add(a: Product, b: Operand): (r: Result<real>)
    reads a, b.Objects()
    ensures b.Foreign? ==> r == Err(NotAProduct)
    ensures b.Prod? ==> (r.Ok? <==> a.details.Class() == b.product.details.Class())
    ensures b.Prod? && r.Err? ==> r.error == MixedVariants
    ensures r.Ok? ==> r.value == Worth(a) + Worth(b.product)
  {
    if b.Foreign? then Err(NotAProduct)
    else if a.details.Class() != b.product.details.Class() then Err(MixedVariants)
    else Ok(a.price * a.quantity as real + b.product.price * b.product.quantity as real)
  }

  /** `+` is commutative, errors included, and always defined on a product and itself. */
  lemma AddCommutes(a: Product, b: Product)
    ensures Add(a, Prod(b)) == Add(b, Prod(a))
    ensures Add(a, Prod(a)).Ok?
  {
  }

  /** Two products with valid prices and non-negative stock add up to a non-negative worth. */
  lemma AddNonNegative(a: Product, b: Product)
    requires a.Valid() && b.Valid() && a.quantity >= 0 && b.quantity >= 0
    requires Add(a, Prod(b)).Ok?
    ensures Add(a, Prod(b)).value >= 0.0
  {
    assert Worth(a) >= 0.0 by { NonNegativeProduct(a.price, a.quantity as real); }
    assert Worth(b) >= 0.0 by { NonNegativeProduct(b.price, b.quantity as real); }
  }

  lemma NonNegativeProduct(x: real, y: real)
    requires x >= 0.0 && y >= 0.0
    ensures x * y >= 0.0
  {
  }
}
