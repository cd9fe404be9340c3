/** Model of src/product_manager.py, built like the user manager: the
    manager owns a `BaseManager` whose store `self.products` aliases, and
    arguments that may be `None` are `Option`s. A price is a real number. */
module Products {
  import opened Wrappers
  import opened Utils
  import opened Base
  import opened Strings

  const ProductEntity := "Product"

  /** The dict `create_product` passes to `_create_record`. */
  function ProductFields(name: string, description: string, price: real): Record {
    map["name" := Text(name), "description" := Text(description), "price" := Real(price)]
  }

  /** The dict `update_product` passes to `_update_record`. */
  function ProductUpdates(name: Option<string>, description: Option<string>, price: Option<real>): Updates {
    map["name" := TextUpdate(name), "description" := TextUpdate(description), "price" := RealUpdate(price)]
  }

  /** The three validations of `create_product`, in order; the first
      failure is the one raised. */
  function CreateProductChecks(name: Option<string>, description: Option<string>, price: Option<real>): (o: Outcome)
    ensures o.Pass? <==> name.Some? && |name.value| >= 3 && description.Some? && |description.value| >= 10
                         && price.Some? && price.value > 0.0
    ensures ValidateMinLength(name, 3, "Product name").Fail? ==> o == ValidateMinLength(name, 3, "Product name")
  {
    var a := ValidateMinLength(name, 3, "Product name");
    var b := ValidateMinLength(description, 10, "Description");
    var c := ValidatePositiveNumber(price, "Price");
    FirstFailureOfThree(a, b, c);
    FirstFailure([a, b, c])
  }

  /** The validations of `update_product`: only the fields given are
      checked, with the same rules as on creation. */
  function UpdateProductChecks(name: Option<string>, description: Option<string>, price: Option<real>): (o: Outcome)
    ensures o.Pass? <==> (name.Some? ==> |name.value| >= 3) && (description.Some? ==> |description.value| >= 10)
                         && (price.Some? ==> price.value > 0.0)
    ensures name.None? && description.None? && price.Some? ==> o == ValidatePositiveNumber(price, "Price")
  {
    var a := IfGiven(name, ValidateMinLength(name, 3, "Product name"));
    var b := IfGiven(description, ValidateMinLength(description, 10, "Description"));
    var c := IfGiven(price, ValidatePositiveNumber(price, "Price"));
    FirstFailureOfThree(a, b, c);
    FirstFailure([a, b, c])
  }

  class ProductManager {
    const base: BaseManager

    ghost predicate Valid()
      reads this, base
    {
      base.Valid()
    }

    constructor ()
      ensures Valid() && fresh(base)
      ensures base.storage == map[] && base.idCounter == 0
    {
      base := new BaseManager();
    }

    /** `create_product`: a failed validation raises its ValueError and
        stores nothing; otherwise the product is stored under a fresh id. */
    method CreateProduct(name: Option<string>, description: Option<string>, price: Option<real>,
                         createdAt: string, updatedAt: string) returns (r: Result<Record>)
      requires Valid()
      modifies base
      ensures Valid()
      ensures CreateProductChecks(name, description, price).Fail? ==>
                r == Err(CreateProductChecks(name, description, price).error)
                && base.storage == old(base.storage) && base.idCounter == old(base.idCounter)
      ensures CreateProductChecks(name, description, price).Pass? ==>
                base.idCounter == old(base.idCounter) + 1 && base.idCounter !in old(base.storage)
                && r == Ok(NewRecord(base.idCounter, ProductFields(name.value, description.value, price.value),
                                     createdAt, updatedAt))
                && base.storage == old(base.storage)[base.idCounter := r.value]
    {
      FirstFailureOfThree(ValidateMinLength(name, 3, "Product name"), ValidateMinLength(description, 10, "Description"),
                          ValidatePositiveNumber(price, "Price"));
      var check := ValidateMinLength(name, 3, "Product name");
      if check.Fail? {
        return Err(check.error);
      }
      check := ValidateMinLength(description, 10, "Description");
      if check.Fail? {
        return Err(check.error);
      }
      check := ValidatePositiveNumber(price, "Price");
      if check.Fail? {
        return Err(check.error);
      }
      var record := base.CreateRecord(ProductFields(name.value, description.value, price.value), createdAt, updatedAt);
      return Ok(record);
    }

    /** `update_product`: the given fields are validated first, so an
        invalid value raises even for an unknown id; then the record is
        updated with the given fields only, or "Product not found" is raised. */
    method UpdateProduct(productId: int, name: Option<string>, description: Option<string>, price: Option<real>,
                         now: string) returns (r: Result<Record>)
      requires Valid()
      modifies base
      ensures Valid()
      ensures base.idCounter == old(base.idCounter) && base.storage.Keys == old(base.storage).Keys
      ensures UpdateProductChecks(name, description, price).Fail? ==>
                r == Err(UpdateProductChecks(name, description, price).error) && base.storage == old(base.storage)
      ensures UpdateProductChecks(name, description, price).Pass? && productId !in old(base.storage) ==>
                r == Err(NotFound(ProductEntity)) && base.storage == old(base.storage)
      ensures UpdateProductChecks(name, description, price).Pass? && productId in old(base.storage) ==>
                r == Ok(Updated(old(base.storage)[productId], ProductUpdates(name, description, price), now))
                && base.storage == old(base.storage)[productId := r.value]
    {
      FirstFailureOfThree(IfGiven(name, ValidateMinLength(name, 3, "Product name")),
                          IfGiven(description, ValidateMinLength(description, 10, "Description")),
                          IfGiven(price, ValidatePositiveNumber(price, "Price")));
      var check := IfGiven(name, ValidateMinLength(name, 3, "Product name"));
      if check.Fail? {
        return Err(check.error);
      }
      check := IfGiven(description, ValidateMinLength(description, 10, "Description"));
      if check.Fail? {
        return Err(check.error);
      }
      check := IfGiven(price, ValidatePositiveNumber(price, "Price"));
      if check.Fail? {
        return Err(check.error);
      }
      r := base.UpdateRecord(productId, ProductUpdates(name, description, price), ProductEntity, now);
    }
  }

  /** A field left out of `update_product` keeps its stored value. */
  lemma OmittedFieldKept(record: Record, name: Option<string>, description: Option<string>,
                         price: Option<real>, now: string, field: string)
    requires field in record && field != "updated_at"
    requires field == "name" ==> name.None?
    requires field == "description" ==> description.None?
    requires field == "price" ==> price.None?
    ensures Updated(record, ProductUpdates(name, description, price), now)[field] == record[field]
  {
    assert field !in Assigned(ProductUpdates(name, description, price));
  }

  /** A name given to `update_product` is the stored name afterwards. */
  lemma GivenNameStored(record: Record, name: string, description: Option<string>,
                        price: Option<real>, now: string)
    ensures Updated(record, ProductUpdates(Some(name), description, price), now)["name"] == Text(name)
  {
    var updates := ProductUpdates(Some(name), description, price);
    assert updates["name"] == Some(Text(name));
    assert "name" in Assigned(updates);
    assert "name" != "updated_at" by {
      assert |"name"| != |"updated_at"|;
    }
  }

  /** tests/test_product_manager.py: a valid product is stored with id 1
      and the given fields. */
  method CreateProductScenario(t: string) returns (product: Result<Record>)
    ensures product.Ok? && product.value.Keys == {"name", "description", "price", "id", "created_at", "updated_at"}
    ensures product.value["name"] == Text("Widget") && product.value["description"] == Text("A useful widget")
    ensures product.value["price"] == Real(19.99) && product.value["id"] == Int(1)
  {
    var manager := new ProductManager();
    product := manager.CreateProduct(Some("Widget"), Some("A useful widget"), Some(19.99), t, t);
  }

  /** tests/test_product_manager.py: a short name, a short description and a
      negative price are refused with the messages the tests look for. */
  lemma ShortNameRefused()
    ensures CreateProductChecks(Some("Wi"), Some("A useful widget"), Some(19.99))
         == Fail(ValueError(MinLengthMessage("Product name", 3)))
  {
    ProductNameMessage();
  }

  lemma ShortDescriptionRefused()
    ensures CreateProductChecks(Some("Widget"), Some("Short"), Some(19.99))
         == Fail(ValueError(MinLengthMessage("Description", 10)))
  {
    assert ValidateMinLength(Some("Widget"), 3, "Product name") == Pass;
    DescriptionMessage("Short");
  }

  lemma NegativePriceRefused()
    ensures CreateProductChecks(Some("Widget"), Some("A useful widget"), Some(-5.0))
         == Fail(ValueError(PositiveMessage("Price")))
  {
    assert ValidateMinLength(Some("Widget"), 3, "Product name") == Pass;
    assert ValidateMinLength(Some("A useful widget"), 10, "Description") == Pass;
    PriceMessage();
  }

  lemma ProductNameMessage()
    ensures ValidateMinLength(Some("Wi"), 3, "Product name")
         == Fail(ValueError(MinLengthMessage("Product name", 3)))
    ensures MinLengthMessage("Product name", 3) == "Product name" + " must be at least " + "3" + " characters long"
  {
    assert NatToString(3) == "3";
  }

  /** tests/test_product_manager.py: renaming a stored product. */
  method RenameProductScenario(t: string, now: string) returns (renamed: Result<Record>)
    ensures renamed.Ok? && "name" in renamed.value && renamed.value["name"] == Text("NewWidget")
  {
    var manager := new ProductManager();
    var product := manager.CreateProduct(Some("Widget"), Some("A useful widget"), Some(19.99), t, t);
    assert 1 in manager.base.storage;
    ghost var stored := manager.base.storage[1];
    renamed := manager.UpdateProduct(1, Some("NewWidget"), None, None, now);
    GivenNameStored(stored, "NewWidget", None, None, now);
  }

  /** tests/test_product_manager.py: renaming an id that was never handed out. */
  method UnknownProductScenario(now: string) returns (unknown: Result<Record>)
    ensures unknown == Err(ValueError("Product not found"))
  {
    var manager := new ProductManager();
    unknown := manager.UpdateProduct(999, Some("NewWidget"), None, None, now);
    assert ProductEntity + " not found" == "Product not found";
  }

  /** tests/test_product_manager.py: a negative new price is refused before
      the store is touched. */
  method InvalidPriceScenario(t: string, now: string) returns (invalid: Result<Record>)
    ensures invalid == Err(ValueError(PositiveMessage("Price")))
  {
    var manager := new ProductManager();
    var product := manager.CreateProduct(Some("Widget"), Some("A useful widget"), Some(19.99), t, t);
    PriceMessage();
    invalid := manager.UpdateProduct(1, None, None, Some(-10.0), now);
  }
}
