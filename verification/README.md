# Retail inventory model

A Dafny model of the inventory classes in `src/classes.py`:

- `Product` and its two subclasses `Smartphone` and `LawnGrass`. The model covers:
  - construction, which refuses a quantity of zero or less and clamps a non-positive price to 0;
  - the guarded `price` setter;
  - the display strings;
  - the `+` operator, which adds the stock worth of two products of the same class.
- The validating factory `Product.new_product`. It checks the four required fields of a mapping in order, converts the fields it can in place, checks the signs and calls the constructor.
- `Category`. The model covers:
  - its ordered product list and the guarded `add_product`;
  - the `products` view, the display string and `middle_price`;
  - the two class-level counters `category_count` and `product_count`.

Modules:

- `Basics` (`basics.dfy`) holds the shared vocabulary:
  - the exceptions, one constructor per `raise`, each with its Python class and message;
  - a `Result` type that carries either a value or the exception raised instead;
  - a `Console` object whose `lines` record what is printed to standard output.
- `Text` (`text.dfy`) models the parts of Python's conversions that the display strings use:
  - `str(int)`, specified by reading the digits back;
  - `int(float)`, which truncates toward zero;
  - `str.split(sep)[0]`, specified as the text before the first occurrence of `sep`.
- `Products` (`products.dfy`) models the product classes:
  - `Product` is a class whose `price` only the setter changes.
  - The class of a product and its extra attributes form the `Details` datatype.
  - `Operand` is a right-hand side of `+`: either a product or any other value.
- `Factory` (`factory.dfy`) models `new_product`:
  - The caller's dict is a `Record` object that the factory rewrites.
  - Its values are `PyValue`s: `Str`, `Int`, `Float` or `Other`.
  - `Visit` specifies the loop over the required fields step by step. It takes the conversion as a parameter: `AsWritten` is the conversion in the source, and `Corrected` refuses a non-string name or description (see the findings below).
  - `Validate` specifies the whole outcome of the factory, and `NewProduct` is the factory itself, a method whose loop is proved equal to `Visit`. Both use the corrected conversion.
- `Categories` (`categories.dfy`) models `Category`. The two counters are the fields of a `Registry` object, which the constructor and `add_product` receive.
- `Scenarios` (`scenarios.dfy`) holds client code that replays the situations of `tests/test_classes.py` against the contracts.

Two points of the code deserve mention:

- The TypeError raised at `src/classes.py:55` speaks of "a string representing a number". Yet a `str` already passes the `isinstance` test at `src/classes.py:41-42`, so a string price or quantity is never converted. The comparison with 0 at `src/classes.py:57` or `:59` then raises Python's own TypeError. The model reports this as `Unordered(field)`, an error of class TypeError.
- The constructor refuses a quantity of 0 (`src/classes.py:19-20`), while the factory's own check is only `quantity < 0` (`src/classes.py:57`). So a quantity of 0 passes the factory's check and is refused by the constructor it calls.

## Model

| member | source | states |
|---|---|---|
| Text.Trunc | src/classes.py:70 | `int(price)` truncates toward zero: for x ≥ 0 the result n has n ≤ x < n + 1, and for x < 0 it has n - 1 < x ≤ n |
| Text.IntToString | src/classes.py:70 | `str(n)` is a non-empty string of numerals. It starts with '-' exactly when n < 0, and its digits read back as abs(n) |
| Text.IntToStringCanonical | src/classes.py:70 | `str(n)` has no leading zero: "0" is the only text starting with '0', and '-' is never followed by '0' |
| Text.IntToStringInjective | src/classes.py:70 | two integers with the same `str()` are equal |
| Text.SplitHead | src/classes.py:90 | `s.split(sep)[0]` is a prefix of s. `sep` does not start at any index inside it, and it ends where the first `sep` starts, or at the end of s when there is none |
| Text.SplitHeadAt | src/classes.py:103 | if the first occurrence of `sep` is at index k, the split head is `s[..k]` |
| Products.Product.constructor | src/classes.py:13-22 | for a quantity > 0, it stores the arguments and sets the price to the given price if that is positive and to 0 otherwise. It prints exactly one line with the class name and the raw arguments |
| Products.Product.Create | src/classes.py:17-22 | a quantity ≤ 0 gives ValueError `ZeroQuantity`, with no object and nothing printed. Otherwise it returns a fresh product as the constructor row states, with price ≥ 0 |
| Products.Product.SetPrice | src/classes.py:29-34 | a value > 0 becomes the price and nothing is printed. A value ≤ 0 leaves the price unchanged and prints the warning. Only the price and the console may change, and price ≥ 0 is preserved |
| Products.Details.ClassName | src/classes.py:15 | `self.__class__.__name__` is "Product", "Smartphone" or "LawnGrass", each for exactly its own class |
| Products.Details.Suffix | src/classes.py:91 | a plain product adds nothing to its text. A Smartphone (`:91`) or a LawnGrass (`:104`) adds a non-empty part starting with ", " |
| Products.BaseTextDeterminesStock | src/classes.py:69-70 | the base text `"{name}, {int(price)} руб. Остаток: {quantity} шт."` determines `int(price)` and the quantity: equal texts for one name have equal whole prices and quantities |
| Products.TextFromShape | src/classes.py:101-104 | for any name, the text `str()` builds from a base text ending in " шт." (`:88-91` is the same) ends with " шт." and the class's own attributes, and what comes before them is a prefix of the base text |
| Products.SuffixDeterminesMemory | src/classes.py:91 | the attributes a Smartphone shows determine its memory: two smartphones of the same model and colour with the same attributes text have the same memory |
| Products.Product.Display | src/classes.py:69-70 | `str(product)` is the base text for a plain product, whatever its name. For any class it is the base text followed by the class's own attributes whenever the name does not contain " шт." |
| Products.AmountsLackLetterSha | src/classes.py:70 | the price and quantity part of the base text contains no 'ш', so it cannot hold " шт." |
| Products.FirstUnitIsClosing | src/classes.py:90 | in `name + u + " шт."`, the first " шт." is the closing one when the name does not contain it |
| Products.ProductTextExtendsBase | src/classes.py:88-91 | whenever the name does not contain " шт.", the text of any product is the base text followed by the class's own attributes. This covers a Smartphone here and a LawnGrass at `:101-104`, and the suffix is empty for a plain product |
| Products.Add | src/classes.py:72-77 | a right operand that is not a product gives TypeError `NotAProduct`. The result is defined exactly when both products have the same class, and is TypeError `MixedVariants` otherwise. The value is price × quantity of the left product plus price × quantity of the right one. Neither operand is changed (`reads` only) |
| Products.AddCommutes | src/classes.py:75-77 | `a + b` and `b + a` are equal, errors included, and `a + a` is always defined |
| Products.AddNonNegative | src/classes.py:77 | with valid prices and non-negative quantities, the sum is non-negative |
| Factory.CoerceAsWritten | src/classes.py:51-55 | the conversion as written: a value of the listed type is kept, and a value neither `int()` nor `float()` accepts gives TypeError naming the field. Otherwise an int n becomes the float n. A float x becomes `int(x)`, truncated, for quantity and stays the float x for any other field. This includes a number in name or description |
| Factory.NumericNameAccepted | src/classes.py:51-53 | as written, the number 5 in `name` becomes the float 5.0, while the corrected conversion refuses it |
| Factory.Coerce | src/classes.py:51-55 | the corrected conversion fails exactly for an unconvertible value, or for a non-string name or description. On failure it gives TypeError naming the field; on success the value has the type `required_fields` lists |
| Factory.Visit | src/classes.py:45-55 | each step of the loop, with either conversion, only rewrites keys the mapping already has, and raises only ValueError for a missing field or TypeError for an unconvertible one |
| Factory.Passing | src/classes.py:45-55 | the number of fields, counted from the first in the loop's order, that are present and convertible before the first that is not: all fields before it pass, and the field at it, if any, fails |
| Factory.VisitByPassing | src/classes.py:45-55 | with either conversion, the loop after n steps has converted exactly the passing fields and raised the exception of the first failing one, if any |
| Factory.VisitStopsAtFirstFailure | src/classes.py:45-55 | with the conversion as written, and likewise with the corrected one: the loop succeeds exactly when no required field is missing or unconvertible, and then every field is converted. Otherwise it raises the exception of the first such field in the order name, description, price, quantity, and only the fields before that one have been converted |
| Factory.FailureIsFinal | src/classes.py:45-55 | with either conversion, once the loop has raised, the later fields change nothing |
| Factory.NumericNameLoop | src/classes.py:45-55 | as written, the loop stores the float 5.0 for the name 5 and goes on without raising; the corrected loop raises TypeError at the name |
| Factory.VisitedShape | src/classes.py:38-55 | after a loop that does not raise, every required field is present and has its listed type |
| Factory.Validate | src/classes.py:45-60 | an accepted mapping gives a non-negative price and quantity. A refusal is a ValueError exactly when it is a missing field or a negative quantity or price, and is a TypeError otherwise |
| Factory.ValidateAccepts | src/classes.py:37-67 | the factory accepts exactly the mappings whose name and description are strings, whose price is a non-negative int or float, and whose quantity is a non-negative int or a float that truncates to one. It passes exactly those values on |
| Factory.ValidateReportsFirstBadField | src/classes.py:45-55 | the first missing or unconvertible field, in the loop's order, decides the exception |
| Factory.NegativeQuantityFirst | src/classes.py:53-60 | a negative quantity raises ValueError before the price is examined. This covers a negative int and a float that `int()` truncates below 0, such as -3.7 |
| Factory.StringQuantityIsTypeError | src/classes.py:57 | a string quantity is not converted and raises TypeError at `quantity < 0` |
| Factory.StringPriceIsTypeError | src/classes.py:53-59 | a string price is not converted and raises TypeError at `price < 0`, once the quantity (an int ≥ 0, or a float that truncates to one) has passed its check |
| Factory.NegativePriceRaises | src/classes.py:53-60 | a negative int or float price raises ValueError `NegativePrice`, once the quantity (an int ≥ 0, or a float that truncates to one) has passed its check |
| Factory.NewProduct | src/classes.py:37-67 | the mapping is rewritten in place as the loop specifies, also when a later field raises. A refused mapping raises the exception `Validate` gives and prints nothing. A quantity of 0 reaches the constructor and is refused there. Otherwise the result is the constructor's product on the converted values, with its printed line |
| Categories.Registry.constructor | src/classes.py:108-109 | both counters start at 0 |
| Categories.TotalQuantityNonNegative | src/classes.py:140 | the sum of quantities is non-negative when no quantity is negative |
| Categories.Texts | src/classes.py:135-137 | the view has one string per product, and its i-th string is `str()` of the i-th product |
| Categories.TextsAppend | src/classes.py:132-137 | appending a product appends its string to the view |
| Categories.AppendFacts | src/classes.py:129-141 | appending a product appends its string to the view and adds its quantity and its price to the two totals |
| Categories.TotalQuantityAppend | src/classes.py:140 | appending a product adds its quantity to the total |
| Categories.TotalPriceAppend | src/classes.py:124 | appending a product adds its price to the sum of prices |
| Categories.TotalPriceBounds | src/classes.py:124 | the sum of prices lies between n × the lowest bound and n × the highest bound |
| Categories.Category.constructor | src/classes.py:111-117 | stores the name, the description and the initial products (none when omitted). It adds 1 to `category_count` and the number of initial products to `product_count` |
| Categories.Category.MiddlePrice | src/classes.py:119-127 | the average price is 0 for an empty category. Otherwise, multiplied by the number of products, it gives the sum of their prices |
| Categories.MiddlePriceBounds | src/classes.py:119-125 | the average price lies between any lower and upper bound of the prices |
| Categories.MiddlePriceNonNegative | src/classes.py:119-125 | when every price is non-negative (the setter's invariant), so is the average |
| Categories.Category.AddProduct | src/classes.py:129-133 | a non-product gives TypeError `NotAProductItem` and changes nothing. A product is appended at the end and counted once in `product_count`; its string is appended to the view and its quantity and price are added to the totals. Nothing else changes |
| Categories.Category.ProductTexts | src/classes.py:135-137 | the `products` view has one string per product, and its i-th string is `str()` of the i-th product in insertion order |
| Categories.Category.Display | src/classes.py:139-141 | `str(category)` is the name and the label, then the sum of the quantities, then " шт.". The total starts with '-' exactly when it is negative, and otherwise its digits read back as the sum |
| Scenarios.NotebookText | src/classes.py:70 | the notebook priced 99999.99 with 5 in stock renders as "Ноутбук, 99999 руб. Остаток: 5 шт." (`tests/test_classes.py:118`) |
| Scenarios.FlagshipText | src/classes.py:70 | the plain product named "Смартфон", priced 69999.99 with 10 in stock, renders as "Смартфон, 69999 руб. Остаток: 10 шт." (`tests/test_classes.py:119`) |
| Scenarios.PhoneText | src/classes.py:88-91 | a Smartphone "Iphone 15" priced 210000.0 with 8 in stock, model "15", 512 GB and colour "Gray" renders as its base text followed by ", модель: 15, память: 512 ГБ, цвет: Gray" |
| Scenarios.TwoTexts | src/classes.py:135-137 | the view of the two plain products "Ноутбук" and "Смартфон" is their two strings in order (`tests/test_classes.py:118-119`) |
| Scenarios.ElectronicsText | src/classes.py:139-141 | a category named "Электроника" holding 15 items in total renders as "Электроника, общее количество товаров: 15 шт." |

## Left out

- `src/utils.py` (`load_data_from_json`) is not part of this model. It is file I/O and JSON decoding that only calls the constructors modelled here.
- Standard output is a `Console` object that records structured lines. A construction line keeps the raw price as a number; Python's text rendering of a float (`99999.99`, `100`, `-100.0`) is not modelled.
- Prices are exact reals, not IEEE floats:
  - rounding in `+` and in `middle_price` is not modelled;
  - NaN and infinity are not modelled, and neither is the `OverflowError` that `int(inf)` raises while converting a quantity.
- Python's `float()`/`int()` grammar for arbitrary objects is not modelled. Field values are `Str`, `Int`, `Float` or `Other`, where `Other` stands for every value both conversions refuse. A `bool` counts as `Int`, as `isinstance` does. A `Str` never reaches a conversion, because it passes every `isinstance` test of `required_fields`.
- The message of the `TypeError` raised at the sign checks comes from Python itself, so the model only names the comparison.
- `Factory.NewProduct`: the class-based dispatch of `new_product` (`cls(...)`) is modelled only for `Product`. Calling it on `Smartphone` or `LawnGrass` fails in Python for lack of the extra arguments.
- Python's class machinery (ABC, `super()` chaining, `isinstance`, `type(...) is`) is replaced by the closed `Details` datatype and the `Operand` datatype. The extra attributes of a Smartphone or LawnGrass are fixed at construction. The conversions `int(memory)` and `str(color)` are taken as given by the argument types.
- `BaseProduct` stores the raw price in a `_price` attribute (`src/classes.py:8`) that nothing reads, so the model does not keep it. The `price` getter is a read of the `price` field.
- `Category` keeps its products as a sequence it owns. The aliasing of the caller's list at `src/classes.py:114`, where a later append through either name is seen by both, is not modelled. The elements of the initial list are taken to be products, although the source does not check them.
- The `ZeroDivisionError` handler in `middle_price` (`src/classes.py:126-127`) cannot be reached, because the empty case returns first.
- `Products.ProductTextExtendsBase` and `Products.Product.Display` state the base text plus the attributes of a Smartphone or LawnGrass only for a name without " шт.". When the name of a Smartphone or LawnGrass contains it, the subclass's `split` cuts the name itself; the model's `ProductText` follows Python there, and `Products.TextFromShape` states what holds for every name. A plain product does no split (`src/classes.py:69-70`), and `Products.Product.Display` gives its base text for every name.
- ValidateAccepts describes the factory with the corrected conversion of "## Findings". As written, the factory also accepts a number in the name or description and stores it as a float. `Factory.NumericNameLoop` shows this for the loop.
- ValidateReportsFirstBadField describes the corrected conversion, so a number in the name or description counts as a bad field. As written it does not; `Factory.VisitStopsAtFirstFailure` with `AsWritten` states the loop as written.
- VisitedShape holds for the corrected loop only. As written, a number in the name or description leaves the loop as a float.
- Validate models the factory with the corrected conversion. As written, a number in the name or description becomes a float, and the product keeps it as its name or description.
- NewProduct runs the corrected conversion, so for a number in the name or description it raises TypeError. As written, the source stores `float(value)` and builds the product.

## Findings

| source | as written | input that shows it | evidently intended | confidence | as-written member | corrected member |
|---|---|---|---|---|---|---|
| src/classes.py:51-53 | a name or description that is not a `str` fails the `isinstance` test and is passed to `float()`, which accepts numbers | `{"name": 5, "description": "d", "price": 1, "quantity": 1}` gives a product named `5.0` | name and description must be strings, so a non-string value raises the field's TypeError | medium, not executed | Factory.CoerceAsWritten (shown by Factory.NumericNameAccepted and Factory.NumericNameLoop) | Factory.Coerce, used by Factory.Validate, Factory.NewProduct, Factory.VisitedShape, Factory.ValidateAccepts and Factory.ValidateReportsFirstBadField |
