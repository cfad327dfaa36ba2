/** Field validators of the item form (frontend/src/utils/validators.ts).
    Each starts from an empty dictionary and adds one message per failed
    check. */
module Validators {
  import opened InvoiceTypes
  import opened Strings

  /** validateItem: the name must not be blank after trimming, the
      quantity must be positive (any positive real, 0.5 included, in spite
      of the "at least 1" wording), the price must not be negative (0 is
      accepted). */
  method ValidateItem(item: InvoiceItem) returns (errors: map<string, string>)
    ensures "name" in errors <==> AllWhitespace(item.name)
    ensures "quantity" in errors <==> item.quantity <= 0.0
    ensures "price" in errors <==> item.price < 0.0
    ensures errors.Keys <= {"name", "quantity", "price"}
    ensures errors == map[] <==>
              !AllWhitespace(item.name) && item.quantity > 0.0 && item.price >= 0.0
    ensures "name" in errors ==> errors["name"] == "Item name is required"
    ensures "quantity" in errors ==> errors["quantity"] == "Quantity must be at least 1"
    ensures "price" in errors ==> errors["price"] == "Price cannot be negative"
  {
    assert "name" != "quantity" && "name" != "price" && "quantity" != "price";
    errors := map[];

    if Trim(item.name) == "" {
      errors := errors["name" := "Item name is required"];
    }

    if item.quantity <= 0.0 {
      errors := errors["quantity" := "Quantity must be at least 1"];
    }

    if item.price < 0.0 {
      errors := errors["price" := "Price cannot be negative"];
    }
  }

  /** validateRates: each rate must lie in [0, 100], both ends included;
      the two checks do not affect each other. */
  method ValidateRates(taxRate: real, discountRate: real) returns (errors: map<string, string>)
    ensures "taxRate" in errors <==> !(0.0 <= taxRate <= 100.0)
    ensures "discountRate" in errors <==> !(0.0 <= discountRate <= 100.0)
    ensures errors.Keys <= {"taxRate", "discountRate"}
    ensures "taxRate" in errors ==> errors["taxRate"] == "Tax must be between 0 and 100"
    ensures "discountRate" in errors ==>
              errors["discountRate"] == "Discount must be between 0 and 100"
  {
    errors := map[];

    if taxRate < 0.0 || taxRate > 100.0 {
      errors := errors["taxRate" := "Tax must be between 0 and 100"];
    }

    if discountRate < 0.0 || discountRate > 100.0 {
      errors := errors["discountRate" := "Discount must be between 0 and 100"];
    }
  }
}
