/** The validating factory `Product.new_product`: it checks an untyped mapping
    field by field, converts in place what it can, checks the signs and hands
    the values to the Product constructor. */
module Factory {
  import opened Basics
  import opened Text
  import opened Products

  /** The Python values a field of the mapping may hold. A bool is an `Int`
      (`isinstance(True, int)` holds); `Other` is any value that both `int()` and
      `float()` refuse, such as a list, a dict or None. */
  datatype PyValue = Str(s: string) | Int(i: int) | Float(f: real) | Other

  /** The caller's dict, which the factory rewrites in place. */
  class Record {
    var entries: map<string, PyValue>

    constructor (entries: map<string, PyValue>)
      ensures this.entries == entries
    {
      this.entries := entries;
    }
  }

  /** The keys of `required_fields`, in the order the loop visits them. */
  const RequiredFields: seq<string> := ["name", "description", "price", "quantity"]

  /** `isinstance(value, field_type)` against the types `required_fields` lists:
      str for name and description, (int, float, str) for price, (int, str) for quantity. */
  predicate HasRequiredType(field: string, v: PyValue)
  {
    if field == "price" then v.Str? || v.Int? || v.Float?
    else if field == "quantity" then v.Str? || v.Int?
    else v.Str?
  }

  /** The loop's conversion as written: a value that fails the isinstance test
      goes through `int()` for quantity and through `float()` for every other
      field, name and description included. */
  function CoerceAsWritten(field: string, v: PyValue): (r: Result<PyValue>)
    ensures HasRequiredType(field, v) ==> r == Ok(v)
    ensures r.Err? <==> v.Other?
    ensures r.Err? ==> r.error == FieldType(field)
    ensures r.Ok? && (field == "price" || field == "quantity") ==> HasRequiredType(field, r.value)
    ensures !HasRequiredType(field, v) && v.Int? ==> r == Ok(Float(v.i as real))
    ensures !HasRequiredType(field, v) && v.Float? ==>
      r == Ok(if field == "quantity" then Int(Trunc(v.f)) else Float(v.f))
  {
    if HasRequiredType(field, v) then Ok(v)
    else
      match v
      case Int(i) => if field == "quantity" then Ok(Int(i)) else Ok(Float(i as real))
      case Float(f) => if field == "quantity" then Ok(Int(Trunc(f))) else Ok(Float(f))
      case Str(_) => Ok(v) // a str passes every isinstance test above
      case Other => Err(FieldType(field))
  }

  /** The conversion the factory is meant to perform: price and quantity are
      converted as written, while a name or description that is not a string is
      refused with the same TypeError instead of becoming a float. */
  function Coerce(field: string, v: PyValue): (r: Result<PyValue>)
    ensures HasRequiredType(field, v) ==> r == Ok(v)
    ensures r.Ok? ==> HasRequiredType(field, r.value)
    ensures r.Err? ==> r.error == FieldType(field)
    ensures r.Err? <==> v.Other? || (field != "price" && field != "quantity" && !v.Str?)
  {
    if HasRequiredType(field, v) then Ok(v)
    else if field == "price" || field == "quantity" then CoerceAsWritten(field, v)
    else Err(FieldType(field))
  }

  /** As written, a number in the name field passes the loop: `float(5)` is stored
      and the product would be named 5.0. The intended conversion refuses it. */
  lemma NumericNameAccepted()
    ensures CoerceAsWritten("name", Int(5)) == Ok(Float(5.0))
    ensures Coerce("name", Int(5)) == Err(FieldType("name"))
  {
  }

  /** Which conversion the loop applies: the one in the source, or the
      corrected one that refuses a non-string name or description. */
  datatype Conversion = AsWritten | Corrected

  function Convert(conv: Conversion, field: string, v: PyValue): (r: Result<PyValue>)
    ensures HasRequiredType(field, v) ==> r == Ok(v)
    ensures r.Err? ==> r.error == FieldType(field)
  {
    match conv
    case AsWritten => CoerceAsWritten(field, v)
    case Corrected => Coerce(field, v)
  }

  /** The loop as written turns the number 5 in the name field into the float
      5.0 and goes on; the corrected loop stops at the name. */
  lemma NumericNameLoop()
    ensures var data := map["name" := Int(5), "description" := Str("d"), "price" := Int(1), "quantity" := Int(1)];
      && Visit(AsWritten, data, |RequiredFields|) == Progress(data["name" := Float(5.0)], None)
      && Visit(Corrected, data, |RequiredFields|) == Progress(data, Some(FieldType("name")))
  {
    var data := map["name" := Int(5), "description" := Str("d"), "price" := Int(1), "quantity" := Int(1)];
    var named := data["name" := Float(5.0)];
    assert Visit(AsWritten, data, 1) == Progress(named, None);
    assert Visit(AsWritten, data, 2) == Progress(named, None);
    assert Visit(AsWritten, data, 3) == Progress(named, None);
    assert Visit(Corrected, data, 1) == Progress(data, Some(FieldType("name")));
    FailureIsFinal(Corrected, data, 1);
  }

  /** Where the loop stands after visiting the fields `RequiredFields[..n]`: the
      mapping as rewritten so far and the exception that stopped it, if any. */
  datatype Progress = Progress(data: map<string, PyValue>, failure: Option<Error>)

  /** The loop over `required_fields`, one field per step, with the given
      conversion. It only rewrites values of keys already present, and raises
      only for a missing or an unconvertible field. */
  function Visit(conv: Conversion, data: map<string, PyValue>, n: nat): (r: Progress)
    requires n <= |RequiredFields|
    ensures r.data.Keys == data.Keys
    ensures r.failure.Some? ==> r.failure.value.MissingField? || r.failure.value.FieldType?
  {
    if n == 0 then Progress(data, None)
    else
      var p := Visit(conv, data, n - 1);
      var field := RequiredFields[n - 1];
      if p.failure.Some? then p
      else if field !in p.data then Progress(p.data, Some(MissingField(field)))
      else if HasRequiredType(field, p.data[field]) then p
      else
        match Convert(conv, field, p.data[field])
        case Ok(v) => Progress(p.data[field := v], None)
        case Err(e) => Progress(p.data, Some(e))
  }

  /** The exception the loop raises for `field`, judged on the caller's mapping alone. */
  function FieldFailure(conv: Conversion, data: map<string, PyValue>, field: string): Option<Error>
  {
    if field !in data then Some(MissingField(field))
    else if Convert(conv, field, data[field]).Err? then Some(FieldType(field))
    else None
  }

  /** The caller's mapping with the fields `RequiredFields[..m]` converted. */
  function Converted(conv: Conversion, data: map<string, PyValue>, m: nat): map<string, PyValue>
    requires m <= |RequiredFields|
  {
    map k | k in data ::
      if k in RequiredFields[..m] && Convert(conv, k, data[k]).Ok? then Convert(conv, k, data[k]).value else data[k]
  }

  /** The loop stops at the first field, in the order name, description, price,
      quantity, that is missing or cannot be converted, and raises that field's
      exception; the fields before it have been converted in the caller's mapping.
      Without such a field, every required field has been converted. */
  lemma VisitStopsAtFirstFailure(conv: Conversion, data: map<string, PyValue>, n: nat)
    requires n <= |RequiredFields|
    ensures Visit(conv, data, n).failure.None? <==> forall j | 0 <= j < n :: FieldFailure(conv, data, RequiredFields[j]).None?
    ensures Visit(conv, data, n).failure.None? ==> Visit(conv, data, n).data == Converted(conv, data, n)
    ensures Visit(conv, data, n).failure.Some? ==>
      exists j | 0 <= j < n ::
        && (forall i | 0 <= i < j :: FieldFailure(conv, data, RequiredFields[i]).None?)
        && Visit(conv, data, n).failure == FieldFailure(conv, data, RequiredFields[j])
        && Visit(conv, data, n).data == Converted(conv, data, j)
  {
    VisitByPassing(conv, data, n);
    var k := Passing(conv, data, n);
    if k < n {
      assert FieldFailure(conv, data, RequiredFields[k]).Some?;
    }
  }

  /** How many of the fields `RequiredFields[..n]`, counted from the first, pass
      before one is missing or cannot be converted. */
  function Passing(conv: Conversion, data: map<string, PyValue>, n: nat): (k: nat)
    requires n <= |RequiredFields|
    ensures k <= n
    ensures forall i | 0 <= i < k :: FieldFailure(conv, data, RequiredFields[i]).None?
    ensures k < n ==> FieldFailure(conv, data, RequiredFields[k]).Some?
  {
    if n == 0 then 0
    else
      var k := Passing(conv, data, n - 1);
      if k == n - 1 && FieldFailure(conv, data, RequiredFields[n - 1]).None? then n else k
  }

  /** The loop after `n` steps has converted the fields that pass, and has
      raised the exception of the first one that does not, if there is one. */
  lemma {:induction false} VisitByPassing(conv: Conversion, data: map<string, PyValue>, n: nat)
    requires n <= |RequiredFields|
    ensures var k := Passing(conv, data, n);
      Visit(conv, data, n) == Progress(Converted(conv, data, k), if k == n then None else FieldFailure(conv, data, RequiredFields[k]))
  {
    if n == 0 {
      assert Converted(conv, data, 0) == data;
    } else {
      VisitByPassing(conv, data, n - 1);
      if Passing(conv, data, n - 1) == n - 1 {
        VisitStep(conv, data, n - 1);
      }
    }
  }

  /** One step of a loop that has not raised: it either converts the next field
      or raises that field's exception. */
  lemma VisitStep(conv: Conversion, data: map<string, PyValue>, m: nat)
    requires m < |RequiredFields|
    requires Visit(conv, data, m) == Progress(Converted(conv, data, m), None)
    ensures FieldFailure(conv, data, RequiredFields[m]).None? ==>
      Visit(conv, data, m + 1) == Progress(Converted(conv, data, m + 1), None)
    ensures FieldFailure(conv, data, RequiredFields[m]).Some? ==>
      Visit(conv, data, m + 1) == Progress(Converted(conv, data, m), FieldFailure(conv, data, RequiredFields[m]))
  {
    ConvertedLeavesRest(conv, data, m);
    if FieldFailure(conv, data, RequiredFields[m]).None? {
      ConvertedStep(conv, data, m);
    }
  }

  /** Converting the fields before `RequiredFields[m]` leaves that field as it was. */
  lemma ConvertedLeavesRest(conv: Conversion, data: map<string, PyValue>, m: nat)
    requires m < |RequiredFields|
    ensures Converted(conv, data, m).Keys == data.Keys
    ensures RequiredFields[m] in data ==> Converted(conv, data, m)[RequiredFields[m]] == data[RequiredFields[m]]
  {
    assert RequiredFields[m] !in RequiredFields[..m];
  }

  /** Converting one more field is an update of that field alone. */
  lemma ConvertedStep(conv: Conversion, data: map<string, PyValue>, m: nat)
    requires m < |RequiredFields|
    requires FieldFailure(conv, data, RequiredFields[m]).None?
    ensures Converted(conv, data, m + 1) == Converted(conv, data, m)[RequiredFields[m] := Convert(conv, RequiredFields[m], data[RequiredFields[m]]).value]
  {
    var field := RequiredFields[m];
    var v := Convert(conv, field, data[field]).value;
    forall k | k in data
      ensures Converted(conv, data, m + 1)[k] == Converted(conv, data, m)[field := v][k]
    {
      assert k in RequiredFields[..m + 1] <==> k in RequiredFields[..m] || k == field;
    }
  }

  /** Once the loop has raised, the later steps change nothing. */
  lemma {:induction false} FailureIsFinal(conv: Conversion, data: map<string, PyValue>, n: nat)
    requires n <= |RequiredFields|
    requires Visit(conv, data, n).failure.Some?
    ensures Visit(conv, data, |RequiredFields|) == Visit(conv, data, n)
    decreases |RequiredFields| - n
  {
    if n < |RequiredFields| {
      assert Visit(conv, data, n + 1) == Visit(conv, data, n);
      FailureIsFinal(conv, data, n + 1);
    }
  }

  /** After a loop that did not raise, every required field is present and has
      the type `required_fields` asks for. */
  lemma VisitedShape(data: map<string, PyValue>)
    requires Visit(Corrected, data, |RequiredFields|).failure.None?
    ensures forall f | f in RequiredFields ::
      f in Visit(Corrected, data, |RequiredFields|).data && HasRequiredType(f, Visit(Corrected, data, |RequiredFields|).data[f])
  {
    VisitStopsAtFirstFailure(Corrected, data, |RequiredFields|);
    var d := Visit(Corrected, data, |RequiredFields|).data;
    forall f | f in RequiredFields
      ensures f in d && HasRequiredType(f, d[f])
    {
      var j :| 0 <= j < |RequiredFields| && RequiredFields[j] == f;
      assert FieldFailure(Corrected, data, RequiredFields[j]).None?;
      assert RequiredFields[..|RequiredFields|] == RequiredFields;
    }
  }

  /** The values handed to the constructor. */
  datatype Args = Args(name: string, description: string, price: real, quantity: int)

  /** The number an int or a float stands for. */
  function Number(v: PyValue): real
    requires v.Int? || v.Float?
  {
    if v.Int? then v.i as real else v.f
  }

  /** What `new_product` passes to the constructor, or the exception it raises
      itself: the loop, then `quantity < 0`, then `price < 0`. Comparing a str
      with 0 raises TypeError. */
  function Validate(data: map<string, PyValue>): (r: Result<Args>)
    ensures r.Ok? ==> r.value.price >= 0.0 && r.value.quantity >= 0
    ensures r.Err? ==> (r.error.Class() == ValueError <==> r.error.MissingField? || r.error in {NegativeQuantity, NegativePrice})
  {
    var p := Visit(Corrected, data, |RequiredFields|);
    if p.failure.Some? then Err(p.failure.value)
    else
      VisitedShape(data);
      var d := p.data;
      var quantity, price := d["quantity"], d["price"];
      if quantity.Str? then Err(Unordered("quantity"))
      else if quantity.i < 0 then Err(NegativeQuantity)
      else if price.Str? then Err(Unordered("price"))
      else if Number(price) < 0.0 then Err(NegativePrice)
      else Ok(Args(d["name"].s, d["description"].s, Number(price), quantity.i))
  }

  /** After the whole corrected loop, a field that passed holds its converted value. */
  lemma ConvertedAt(data: map<string, PyValue>, j: nat)
    requires j < |RequiredFields|
    requires FieldFailure(Corrected, data, RequiredFields[j]).None?
    ensures var f := RequiredFields[j];
      f in data && Converted(Corrected, data, |RequiredFields|)[f] == Coerce(f, data[f]).value
  {
    assert RequiredFields[j] in RequiredFields[..|RequiredFields|];
  }

  /** `value` is an int or a float standing for `x`. */
  predicate IsPrice(v: PyValue, x: real)
  {
    (v.Int? && v.i as real == x) || v == Float(x)
  }

  /** `value` is an int equal to `n`, or a float that `int()` truncates to `n`. */
  predicate IsQuantity(v: PyValue, n: int)
  {
    v == Int(n) || (v.Float? && Trunc(v.f) == n)
  }

  /** The factory accepts exactly the mappings whose name and description are
      strings, whose price is a non-negative int or float and whose quantity is a
      non-negative int or a float that truncates to one; it then passes those values on. */
  lemma ValidateAccepts(data: map<string, PyValue>, a: Args)
    ensures Validate(data) == Ok(a) <==>
      && "name" in data && data["name"] == Str(a.name)
      && "description" in data && data["description"] == Str(a.description)
      && "price" in data && IsPrice(data["price"], a.price) && a.price >= 0.0
      && "quantity" in data && IsQuantity(data["quantity"], a.quantity) && a.quantity >= 0
  {
    VisitStopsAtFirstFailure(Corrected, data, |RequiredFields|);
    assert RequiredFields[..|RequiredFields|] == RequiredFields;
    var p := Visit(Corrected, data, |RequiredFields|);
    if p.failure.None? {
      assert forall j | 0 <= j < |RequiredFields| :: FieldFailure(Corrected, data, RequiredFields[j]).None?;
      assert FieldFailure(Corrected, data, RequiredFields[0]).None? && FieldFailure(Corrected, data, RequiredFields[1]).None?;
      assert FieldFailure(Corrected, data, RequiredFields[2]).None? && FieldFailure(Corrected, data, RequiredFields[3]).None?;
      ConvertedAt(data, 0);
      ConvertedAt(data, 1);
      ConvertedAt(data, 2);
      ConvertedAt(data, 3);
    } else {
      var j :| 0 <= j < |RequiredFields| && p.failure == FieldFailure(Corrected, data, RequiredFields[j]);
      assert FieldFailure(Corrected, data, RequiredFields[j]).Some?;
    }
  }

  /** Given fields that pass the loop, the first missing or unconvertible field in
      the order name, description, price, quantity decides the exception. */
  lemma ValidateReportsFirstBadField(data: map<string, PyValue>, j: nat)
    requires j < |RequiredFields|
    requires forall i | 0 <= i < j :: FieldFailure(Corrected, data, RequiredFields[i]).None?
    requires FieldFailure(Corrected, data, RequiredFields[j]).Some?
    ensures Validate(data) == Err(FieldFailure(Corrected, data, RequiredFields[j]).value)
  {
    VisitStopsAtFirstFailure(Corrected, data, |RequiredFields|);
    var p := Visit(Corrected, data, |RequiredFields|);
    var k :| 0 <= k < |RequiredFields| && (forall i | 0 <= i < k :: FieldFailure(Corrected, data, RequiredFields[i]).None?)
      && p.failure == FieldFailure(Corrected, data, RequiredFields[k]);
  }

  /** The sign of the quantity is checked before the price is looked at: a
      negative quantity raises ValueError whatever the (convertible) price. */
  lemma NegativeQuantityFirst(data: map<string, PyValue>)
    requires "name" in data && data["name"].Str? && "description" in data && data["description"].Str?
    requires "price" in data && !data["price"].Other?
    requires "quantity" in data
    requires (data["quantity"].Int? && data["quantity"].i < 0) || (data["quantity"].Float? && Trunc(data["quantity"].f) < 0)
    ensures Validate(data) == Err(NegativeQuantity)
  {
    VisitStopsAtFirstFailure(Corrected, data, |RequiredFields|);
    assert RequiredFields[..|RequiredFields|] == RequiredFields;
    assert FieldFailure(Corrected, data, RequiredFields[2]).None? && FieldFailure(Corrected, data, RequiredFields[3]).None?;
  }

  /** A string quantity passes the isinstance test unconverted, so `quantity < 0`
      compares a str with an int and raises TypeError. */
  lemma StringQuantityIsTypeError(data: map<string, PyValue>)
    requires "name" in data && data["name"].Str? && "description" in data && data["description"].Str?
    requires "price" in data && !data["price"].Other?
    requires "quantity" in data && data["quantity"].Str?
    ensures Validate(data) == Err(Unordered("quantity"))
    ensures Validate(data).error.Class() == TypeError
  {
    VisitStopsAtFirstFailure(Corrected, data, |RequiredFields|);
    assert RequiredFields[..|RequiredFields|] == RequiredFields;
    assert FieldFailure(Corrected, data, RequiredFields[2]).None? && FieldFailure(Corrected, data, RequiredFields[3]).None?;
  }

  /** Likewise a string price reaches `price < 0` unconverted and raises TypeError
      once the quantity has passed its own check. */
  lemma StringPriceIsTypeError(data: map<string, PyValue>)
    requires "name" in data && data["name"].Str? && "description" in data && data["description"].Str?
    requires "price" in data && data["price"].Str?
    requires "quantity" in data
    requires (data["quantity"].Int? && data["quantity"].i >= 0) || (data["quantity"].Float? && Trunc(data["quantity"].f) >= 0)
    ensures Validate(data) == Err(Unordered("price"))
    ensures Validate(data).error.Class() == TypeError
  {
    VisitStopsAtFirstFailure(Corrected, data, |RequiredFields|);
    assert RequiredFields[..|RequiredFields|] == RequiredFields;
    assert FieldFailure(Corrected, data, RequiredFields[2]).None? && FieldFailure(Corrected, data, RequiredFields[3]).None?;
  }

  /** Last of the sign checks: a negative price raises ValueError once the
      quantity has passed its own check. */
  lemma NegativePriceRaises(data: map<string, PyValue>)
    requires "name" in data && data["name"].Str? && "description" in data && data["description"].Str?
    requires "price" in data && (data["price"].Int? || data["price"].Float?) && Number(data["price"]) < 0.0
    requires "quantity" in data
    requires (data["quantity"].Int? && data["quantity"].i >= 0) || (data["quantity"].Float? && Trunc(data["quantity"].f) >= 0)
    ensures Validate(data) == Err(NegativePrice)
  {
    VisitStopsAtFirstFailure(Corrected, data, |RequiredFields|);
    assert RequiredFields[..|RequiredFields|] == RequiredFields;
    assert FieldFailure(Corrected, data, RequiredFields[2]).None? && FieldFailure(Corrected, data, RequiredFields[3]).None?;
  }

  /** `Product.new_product(data)`: the loop rewrites `data` in place (also when a
      later field then raises), the sign checks follow, and on success the result
      is exactly what the Product constructor makes of the converted values, so a
      quantity of 0 passes the factory and is refused by the constructor. */
  method NewProduct(data: Record, console: Console) returns (r: Result<Product>)
    modifies data, console
    ensures data.entries == Visit(Corrected, old(data.entries), |RequiredFields|).data
    ensures Validate(old(data.entries)).Err? ==>
      r == Err(Validate(old(data.entries)).error) && console.lines == old(console.lines)
    ensures Validate(old(data.entries)).Ok? && Validate(old(data.entries)).value.quantity == 0 ==>
      r == Err(ZeroQuantity) && console.lines == old(console.lines)
    ensures Validate(old(data.entries)).Ok? && Validate(old(data.entries)).value.quantity != 0 ==>
      var a := Validate(old(data.entries)).value;
      && r.Ok? && fresh(r.value) && r.value.Valid() && r.value.details == Plain
      && r.value.name == a.name && r.value.description == a.description
      && r.value.price == a.price && r.value.quantity == a.quantity
      && console.lines == old(console.lines) + [Created("Product", a.name, a.description, a.price, a.quantity)]
  {
    ghost var original := data.entries;
    var i := 0;
    while i < |RequiredFields|
      invariant 0 <= i <= |RequiredFields|
      invariant Visit(Corrected, original, i) == Progress(data.entries, None)
      modifies data
    {
      var field := RequiredFields[i];
      if field !in data.entries {
        FailureIsFinal(Corrected, original, i + 1);
        return Err(MissingField(field));
      }
      var value := data.entries[field];
      if !HasRequiredType(field, value) {
        var converted := Convert(Corrected, field, value);
        if converted.Err? {
          FailureIsFinal(Corrected, original, i + 1);
          return Err(converted.error);
        }
        data.entries := data.entries[field := converted.value];
      }
      i := i + 1;
    }
    VisitedShape(original);
    var quantity := data.entries["quantity"];
    if quantity.Str? {
      return Err(Unordered("quantity"));
    }
    if quantity.i < 0 {
      return Err(NegativeQuantity);
    }
    var price := data.entries["price"];
    if price.Str? {
      return Err(Unordered("price"));
    }
    if Number(price) < 0.0 {
      return Err(NegativePrice);
    }
    r := Product.Create(Plain, data.entries["name"].s, data.entries["description"].s, Number(price), quantity.i, console);
  }
}
