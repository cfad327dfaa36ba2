/** The records the invoice core works on (frontend/src/types/invoice.ts).
    Amounts, quantities and percentage rates are exact reals. */
module InvoiceTypes {

  /** One line of an invoice: rates are percentages. */
  datatype InvoiceItem = InvoiceItem(
    id: string,
    name: string,
    quantity: real,
    price: real,
    discountRate: real,
    gstRate: real
  )

  /** The four aggregate amounts shown under the item table. */
  datatype InvoiceTotals = InvoiceTotals(
    subtotal: real,
    tax: real,
    discount: real,
    grandTotal: real
  )

  /** The issuing business. An absent optional field is the empty string. */
  datatype SellerDetails = SellerDetails(
    companyName: string,
    address: string,
    phone: string,
    email: string,
    gstin: string,
    state: string,
    logo: string
  )

  /** The billed party. An absent optional field is the empty string. */
  datatype BuyerDetails = BuyerDetails(
    name: string,
    address: string,
    gstin: string,
    state: string,
    phone: string,
    shippingAddress: string,
    shippingState: string
  )
}
