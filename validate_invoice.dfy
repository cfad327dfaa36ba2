/** Invoice-level validation (frontend/src/utils/validateInvoice.ts): the
    required seller and buyer fields and the non-empty item list. Error maps
    are keyed by the field names of SellerDetails and BuyerDetails. */
module ValidateInvoice {
  import opened InvoiceTypes

  datatype Option<T> = None | Some(value: T)

  /** ValidationErrors: one message per offending seller field, one per
      offending buyer field, and an item-list message or null. */
  datatype ValidationErrors = ValidationErrors(
    seller: map<string, string>,
    buyer: map<string, string>,
    items: Option<string>
  )

  const SellerRequired: set<string> := {"companyName", "address", "gstin", "state"}
  const BuyerRequired: set<string> := {"name", "address"}

  /** The value of a required seller field, by its key. */
  function SellerField(seller: SellerDetails, key: string): string
    requires key in SellerRequired
  {
    if key == "companyName" then seller.companyName
    else if key == "address" then seller.address
    else if key == "gstin" then seller.gstin
    else seller.state
  }

  /** The seller with one required field replaced. */
  function WithSellerField(seller: SellerDetails, key: string, v: string): (s: SellerDetails)
    requires key in SellerRequired
    ensures SellerField(s, key) == v
    ensures forall k :: k in SellerRequired && k != key ==> SellerField(s, k) == SellerField(seller, k)
  {
    if key == "companyName" then seller.(companyName := v)
    else if key == "address" then seller.(address := v)
    else if key == "gstin" then seller.(gstin := v)
    else seller.(state := v)
  }

  function BuyerField(buyer: BuyerDetails, key: string): string
    requires key in BuyerRequired
  {
    if key == "name" then buyer.name else buyer.address
  }

  function WithBuyerField(buyer: BuyerDetails, key: string, v: string): (b: BuyerDetails)
    requires key in BuyerRequired
    ensures BuyerField(b, key) == v
    ensures forall k :: k in BuyerRequired && k != key ==> BuyerField(b, k) == BuyerField(buyer, k)
  {
    if key == "name" then buyer.(name := v) else buyer.(address := v)
  }

  /** The message shown for an empty required seller field. */
  function SellerMessage(key: string): string
    requires key in SellerRequired
  {
    if key == "companyName" then "Company name is required"
    else if key == "address" then "Address is required"
    else if key == "gstin" then "GSTIN is required"
    else "State is required"
  }

  function BuyerMessage(key: string): string
    requires key in BuyerRequired
  {
    if key == "name" then "Buyer name is required" else "Billing address is required"
  }

  /** The seller keys that draw an error: the required fields left empty.
      (`!value` is true of "" and of an absent field, which is "" here.) */
  function SellerErrorKeys(seller: SellerDetails): set<string> {
    set k | k in SellerRequired && SellerField(seller, k) == ""
  }

  function BuyerErrorKeys(buyer: BuyerDetails): set<string> {
    set k | k in BuyerRequired && BuyerField(buyer, k) == ""
  }

  /** The seller block of validateInvoice: one message per empty
      required field. */
  method ValidateSeller(seller: SellerDetails) returns (errors: map<string, string>)
    ensures "companyName" in errors <==> seller.companyName == ""
    ensures "address" in errors <==> seller.address == ""
    ensures "gstin" in errors <==> seller.gstin == ""
    ensures "state" in errors <==> seller.state == ""
    ensures errors.Keys == SellerErrorKeys(seller)
    ensures forall k :: k in errors ==> errors[k] == SellerMessage(k)
  {
    errors := map[];
    if seller.companyName == "" {
      errors := errors["companyName" := "Company name is required"];
    }
    if seller.address == "" {
      errors := errors["address" := "Address is required"];
    }
    if seller.gstin == "" {
      errors := errors["gstin" := "GSTIN is required"];
    }
    if seller.state == "" {
      errors := errors["state" := "State is required"];
    }
  }

  /** The buyer block of validateInvoice: name and billing address only;
      GSTIN and State are optional. */
  method ValidateBuyer(buyer: BuyerDetails) returns (errors: map<string, string>)
    ensures "name" in errors <==> buyer.name == ""
    ensures "address" in errors <==> buyer.address == ""
    ensures errors.Keys == BuyerErrorKeys(buyer)
    ensures forall k :: k in errors ==> errors[k] == BuyerMessage(k)
  {
    errors := map[];
    if buyer.name == "" {
      errors := errors["name" := "Buyer name is required"];
    }
    if buyer.address == "" {
      errors := errors["address" := "Billing address is required"];
    }
  }

  /** validateInvoice: empty maps and a null item message to start with,
      then one entry per failed check. The item contents are never
      looked at, only whether there are any. */
  method Validate(seller: SellerDetails, buyer: BuyerDetails, items: seq<InvoiceItem>)
    returns (errors: ValidationErrors)
    ensures errors.seller.Keys == SellerErrorKeys(seller)
    ensures errors.buyer.Keys == BuyerErrorKeys(buyer)
    ensures forall k :: k in errors.seller ==> errors.seller[k] == SellerMessage(k)
    ensures forall k :: k in errors.buyer ==> errors.buyer[k] == BuyerMessage(k)
    ensures errors.items.Some? <==> items == []
    ensures errors.items.Some? ==> errors.items.value == "At least one item is required"
  {
    var sellerErrors := ValidateSeller(seller);
    var buyerErrors := ValidateBuyer(buyer);
    var itemsError: Option<string> := None;
    if |items| == 0 {
      itemsError := Some("At least one item is required");
    }
    errors := ValidationErrors(sellerErrors, buyerErrors, itemsError);
  }

  /** Emptying one required seller field adds exactly that key; the other
      keys stay as they were. */
  lemma {:induction false} SellerChecksIndependent(seller: SellerDetails, key: string)
    requires key in SellerRequired
    ensures SellerErrorKeys(WithSellerField(seller, key, "")) == SellerErrorKeys(seller) + {key}
  {
    var s := WithSellerField(seller, key, "");
    forall k | k in SellerRequired
      ensures k in SellerErrorKeys(s) <==> k in SellerErrorKeys(seller) + {key}
    {
    }
  }

  /** Emptying one required buyer field adds exactly that key. */
  lemma {:induction false} BuyerChecksIndependent(buyer: BuyerDetails, key: string)
    requires key in BuyerRequired
    ensures BuyerErrorKeys(WithBuyerField(buyer, key, "")) == BuyerErrorKeys(buyer) + {key}
  {
    var b := WithBuyerField(buyer, key, "");
    forall k | k in BuyerRequired
      ensures k in BuyerErrorKeys(b) <==> k in BuyerErrorKeys(buyer) + {key}
    {
    }
  }

  /** A seller whose required fields are all non-empty, whitespace
      included, draws no error; the same for a buyer. Buyer GSTIN and
      State never matter. */
  lemma FullyPopulated(seller: SellerDetails, buyer: BuyerDetails)
    requires seller.companyName != "" && seller.address != ""
    requires seller.gstin != "" && seller.state != ""
    requires buyer.name != "" && buyer.address != ""
    ensures SellerErrorKeys(seller) == {}
    ensures BuyerErrorKeys(buyer) == {}
    ensures BuyerErrorKeys(buyer.(gstin := "", state := "")) == {}
  {
    assert forall k | k in SellerRequired :: SellerField(seller, k) != "";
    assert forall k | k in BuyerRequired :: BuyerField(buyer, k) != "";
    assert forall k | k in BuyerRequired :: BuyerField(buyer.(gstin := "", state := ""), k) != "";
  }
}
