/** Client code that replays the scenarios of tests/test_classes.py against the
    contracts above: each assertion is derived from the specifications alone. */
module Scenarios {
  import opened Basics
  import opened Text
  import opened Products
  import opened Factory
  import opened Categories

  /** A product keeps the constructor's arguments and prints one line. */
  method ProductInitialization()
  {
    var console := new Console();
    var r := Product.Create(Plain, "Ноутбук", "Мощный ноутбук", 99999.99, 5, console);
    assert r.Ok?;
    var p := r.value;
    assert p.name == "Ноутбук" && p.description == "Мощный ноутбук";
    assert p.price == 99999.99 && p.quantity == 5;
    assert console.lines == [Created("Product", "Ноутбук", "Мощный ноутбук", 99999.99, 5)];
  }

  /** A quantity of zero raises and prints nothing; a negative price is stored as 0. */
  method ConstructorPolicies()
  {
    var console := new Console();
    var r := Product.Create(Plain, "Телефон", "Простой", 100.0, 0, console);
    assert r == Err(ZeroQuantity) && r.error.Class() == ValueError;
    assert r.error.Message() == "Товар с нулевым количеством не может быть добавлен";
    assert console.lines == [];
    r := Product.Create(Plain, "Телефон", "Простой", -100.0, 1, console);
    assert r.Ok? && r.value.price == 0.0;
    assert console.lines == [Created("Product", "Телефон", "Простой", -100.0, 1)];
  }

  /** The setter refuses a negative price with a diagnostic and accepts a positive one. */
  method PriceSetter()
  {
    var console := new Console();
    var r := Product.Create(Plain, "Телефон", "Простой", 10000.0, 10, console);
    var p := r.value;
    p.SetPrice(-5000.0, console);
    assert p.price == 10000.0;
    assert console.lines[|console.lines| - 1] == Warning("Цена не должна быть нулевая или отрицательная");
    p.SetPrice(12000.0, console);
    assert p.price == 12000.0;
  }

  /** A list in the price field cannot be converted: TypeError naming the price. */
  method FactoryInvalidType()
  {
    var console := new Console();
    var entries := map["name" := Str("Смартфон"), "description" := Str("Флагман"), "price" := Other, "quantity" := Str("8")];
    assert FieldFailure(Corrected, entries, RequiredFields[0]).None? && FieldFailure(Corrected, entries, RequiredFields[1]).None?;
    assert FieldFailure(Corrected, entries, RequiredFields[2]) == Some(FieldType("price"));
    ValidateReportsFirstBadField(entries, 2);
    var data := new Record(entries);
    var r := NewProduct(data, console);
    assert r == Err(FieldType("price")) && r.error.Class() == TypeError;
    assert console.lines == [];
  }

  /** The factory builds a product from well-typed fields; a float quantity is truncated. */
  method FactorySuccess()
  {
    var console := new Console();
    var entries := map["name" := Str("Ноутбук"), "description" := Str("Мощный"), "price" := Int(1000), "quantity" := Float(3.7)];
    ValidateAccepts(entries, Args("Ноутбук", "Мощный", 1000.0, 3));
    var data := new Record(entries);
    var r := NewProduct(data, console);
    assert r.Ok? && r.value.quantity == 3 && r.value.price == 1000.0;
  }

  /** `+` adds the stock values of two products of one class and refuses mixed classes. */
  method Combination()
  {
    var console := new Console();
    var ra := Product.Create(Plain, "A", "", 100.0, 10, console);
    var rb := Product.Create(Plain, "B", "", 200.0, 2, console);
    assert Add(ra.value, Prod(rb.value)) == Ok(1400.0);
    var rs := Product.Create(Phone("high", "S23", 256, "black"), "Phone", "", 1.0, 1, console);
    var rg := Product.Create(Grass("Russia", "7 days", "green"), "Grass", "", 1.0, 1, console);
    assert Add(rs.value, Prod(rg.value)) == Err(MixedVariants);
    assert Add(rs.value, Foreign) == Err(NotAProduct);
  }

  /** Two categories with two and one initial products. */
  method Counters()
  {
    var console := new Console();
    var registry := new Registry();
    var r1 := Product.Create(Plain, "Телефон", "Смартфон", 50000.0, 10, console);
    var r2 := Product.Create(Plain, "Планшет", "Сенсорный экран", 30000.0, 5, console);
    var r3 := Product.Create(Plain, "Ноутбук", "Мощный ноутбук", 99999.99, 5, console);
    var p1, p2, p3 := r1.value, r2.value, r3.value;
    var gadgets := new Category("Гаджеты", "Мобильные устройства", [p1, p2], registry);
    var computers := new Category("Компьютеры", "Стационарные устройства", [p3], registry);
    assert registry.categoryCount == 2 && registry.productCount == 3;
  }

  /** add_product counts a product once and refuses anything else. */
  method AddProductCounter()
  {
    var console := new Console();
    var registry := new Registry();
    var r := Product.Create(Plain, "Ноутбук", "Мощный", 99999.99, 5, console);
    var p := r.value;
    var c := new Category("Электроника", "Техника", [], registry);
    var s := c.AddProduct(Prod(p), registry);
    assert registry.productCount == 1 && c.products == [p];
    s := c.AddProduct(Foreign, registry);
    assert s == Failure(NotAProductItem) && registry.productCount == 1 && c.products == [p];
  }

  /** The texts tests/test_classes.py expects of two products. */
  lemma NotebookText()
    ensures BaseText("Ноутбук", 99999.99, 5) == "Ноутбук, 99999 руб. Остаток: 5 шт."
  {
    NotebookPrice();
  }

  lemma NotebookPrice()
    ensures Trunc(99999.99) == 99999 && IntToString(99999) == "99999"
  {
  }

  lemma FlagshipText()
    ensures BaseText("Смартфон", 69999.99, 10) == "Смартфон, 69999 руб. Остаток: 10 шт."
  {
    FlagshipPrice();
  }

  lemma FlagshipPrice()
    ensures Trunc(69999.99) == 69999 && IntToString(69999) == "69999"
  {
  }

  lemma NotebookDisplay(p: Product)
    requires p.details == Plain && p.name == "Ноутбук" && p.price == 99999.99 && p.quantity == 5
    ensures p.Display() == "Ноутбук, 99999 руб. Остаток: 5 шт."
  {
    NotebookText();
  }

  lemma FlagshipDisplay(p: Product)
    requires p.details == Plain && p.name == "Смартфон" && p.price == 69999.99 && p.quantity == 10
    ensures p.Display() == "Смартфон, 69999 руб. Остаток: 10 шт."
  {
    FlagshipText();
  }

  lemma TwoTexts(a: Product, b: Product)
    requires a.details == Plain && a.name == "Ноутбук" && a.price == 99999.99 && a.quantity == 5
    requires b.details == Plain && b.name == "Смартфон" && b.price == 69999.99 && b.quantity == 10
    ensures Texts([a, b]) == ["Ноутбук, 99999 руб. Остаток: 5 шт.", "Смартфон, 69999 руб. Остаток: 10 шт."]
  {
    NotebookDisplay(a);
    FlagshipDisplay(b);
  }

  /** A Smartphone's text is the base text followed by its model, memory and
      colour, through the split at " шт.". */
  lemma PhoneText()
    ensures ProductText(Phone("98.2", "15", 512, "Gray"), "Iphone 15", 210000.0, 8)
      == "Iphone 15, 210000 руб. Остаток: 8 шт." + ", модель: 15, память: 512 ГБ, цвет: Gray"
  {
    PhoneNameLacksUnit();
    ProductTextExtendsBase(Phone("98.2", "15", 512, "Gray"), "Iphone 15", 210000.0, 8);
    PhoneBase();
    PhoneSuffix();
  }

  lemma PhoneNameLacksUnit()
    ensures !Contains("Iphone 15", Unit)
  {
    var name := "Iphone 15";
    forall i: nat | i <= |name| ensures !OccursAt(name, Unit, i) {
      if i + |Unit| <= |name| {
        assert name[i + 1] != Unit[1];
      }
    }
  }

  lemma PhoneBase()
    ensures BaseText("Iphone 15", 210000.0, 8) == "Iphone 15, 210000 руб. Остаток: 8 шт."
  {
    PhoneAmounts();
  }

  lemma PhoneAmounts()
    ensures Trunc(210000.0) == 210000 && IntToString(210000) == "210000" && IntToString(8) == "8"
  {
  }

  lemma PhoneSuffix()
    ensures Phone("98.2", "15", 512, "Gray").Suffix() == ", модель: 15, память: 512 ГБ, цвет: Gray"
  {
    PhoneMemory();
  }

  lemma PhoneMemory()
    ensures IntToString(512) == "512"
  {
  }

  /** The `products` view lists the products' texts in order. */
  method CategoryProductTexts()
  {
    var console := new Console();
    var registry := new Registry();
    var r1 := Product.Create(Plain, "Ноутбук", "Мощный", 99999.99, 5, console);
    var r2 := Product.Create(Plain, "Смартфон", "Флагман", 69999.99, 10, console);
    var p1, p2 := r1.value, r2.value;
    var c := new Category("Электроника", "Техника", [p1, p2], registry);
    TwoTexts(p1, p2);
    var texts := c.ProductTexts();
    assert texts == ["Ноутбук, 99999 руб. Остаток: 5 шт.", "Смартфон, 69999 руб. Остаток: 10 шт."];
  }

  lemma TotalQuantityOfTwo(a: Product, b: Product)
    ensures TotalQuantity([a, b]) == a.quantity + b.quantity
  {
    assert [a, b][1..] == [b] && [b][1..] == [];
    assert TotalQuantity([b]) == b.quantity + TotalQuantity([]);
    assert TotalQuantity([a, b]) == a.quantity + TotalQuantity([b]);
  }

  lemma ElectronicsText(c: Category)
    requires c.name == "Электроника" && TotalQuantity(c.products) == 15
    ensures c.Display() == "Электроника, общее количество товаров: 15 шт."
  {
    FifteenText();
  }

  lemma FifteenText()
    ensures IntToString(15) == "15"
  {
  }

  /** The category text shows the total quantity. */
  method CategoryText()
  {
    var console := new Console();
    var registry := new Registry();
    var r1 := Product.Create(Plain, "Ноутбук", "Мощный", 99999.99, 5, console);
    var r2 := Product.Create(Plain, "Смартфон", "Флагман", 69999.99, 10, console);
    var p1, p2 := r1.value, r2.value;
    var c := new Category("Электроника", "Техника", [p1, p2], registry);
    assert TotalQuantity(c.products) == 15 by {
      TotalQuantityOfTwo(p1, p2);
    }
    ElectronicsText(c);
    assert c.Display() == "Электроника, общее количество товаров: 15 шт.";
  }
}
