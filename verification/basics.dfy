/** Vocabulary shared by the inventory model: the exceptions the classes raise,
    results that carry them, and the standard-output channel the classes print to. */
module Basics {

  datatype Option<T> = None | Some(value: T)

  /** The two Python exception classes raised by the inventory classes. */
  datatype ExceptionClass = ValueError | TypeError

  /** One constructor per `raise` in the inventory classes (and the `TypeError`
      Python raises when a string reaches a `< 0` comparison). */
  datatype Error =
    | ZeroQuantity               // Product.__init__: quantity <= 0
    | MissingField(field: string) // new_product: a required key is absent
    | FieldType(field: string)    // new_product: int()/float() conversion failed
    | Unordered(field: string)    // new_product: `str < int` at the sign checks
    | NegativeQuantity           // new_product: quantity < 0
    | NegativePrice              // new_product: price < 0
    | NotAProduct                // Product.__add__: right operand is not a Product
    | MixedVariants              // Product.__add__: operands of different classes
    | NotAProductItem            // Category.add_product: argument is not a Product
  {
    /** The Python class of the exception raised. */
    function Class(): ExceptionClass
    {
      match this
      case ZeroQuantity | MissingField(_) | NegativeQuantity | NegativePrice => ValueError
      case FieldType(_) | Unordered(_) | NotAProduct | MixedVariants | NotAProductItem => TypeError
    }

    /** The message the exception carries. */
    function Message(): string
    {
      match this
      case ZeroQuantity => "Товар с нулевым количеством не может быть добавлен"
      case MissingField(f) => "Отсутствует обязательное поле: " + f
      case FieldType(f) => "Поле '" + f + "' должно быть числом или строкой, представляющей число"
      case Unordered(_) => "'<' not supported between instances of 'str' and 'int'"
      case NegativeQuantity => "Количество товара не может быть отрицательным"
      case NegativePrice => "Цена товара не может быть отрицательной"
      case NotAProduct => "Можно складывать только товары и их наследников"
      case MixedVariants => "Можно складывать только товары одного типа"
      case NotAProductItem => "Можно добавлять только объекты класса Product или его наследников"
    }
  }

  /** A value, or the exception raised instead of returning it. */
  datatype Result<T> = Ok(value: T) | Err(error: Error)

  /** The outcome of a call that returns None in Python. */
  datatype Status = Success | Failure(error: Error)

  /** One line printed to standard output. A construction line keeps the raw
      constructor arguments; its price is kept as a number, not as text. A
      warning is printed as its text. */
  datatype Line =
    | Created(className: string, name: string, description: string, price: real, quantity: int)
    | Warning(text: string)

  /** The diagnostic the price setter prints when it refuses a value. */
  const PriceWarning := "Цена не должна быть нулевая или отрицательная"

  /** Standard output: everything printed so far, in order. */
  class Console {
    var lines: seq<Line>

    constructor ()
      ensures lines == []
    {
      lines := [];
    }
  }
}
