/** Tax-type classification (frontend/src/utils/gstType.ts): a supply
    within one State is taxed as CGST + SGST, a supply between States as
    IGST, in the spirit of sections 7 and 8 of the Integrated Goods and
    Services Tax Act, 2017. */
module GstType {

  datatype GstKind = IGST | CGST_SGST

  /** getGstType: an empty seller or buyer State falls back to CGST_SGST;
      otherwise the two names are compared exactly (case-sensitively). */
  function GetGstType(sellerState: string, buyerState: string): (r: GstKind)
    ensures r == IGST <==> sellerState != "" && buyerState != "" && sellerState != buyerState
    ensures sellerState == "" || buyerState == "" ==> r == CGST_SGST
    ensures sellerState == buyerState ==> r == CGST_SGST
  {
    if sellerState == "" || buyerState == "" then CGST_SGST
    else if sellerState == buyerState then CGST_SGST
    else IGST
  }

  /** The classification does not depend on which party is the seller. */
  lemma GstTypeSymmetric(a: string, b: string)
    ensures GetGstType(a, b) == GetGstType(b, a)
  {
  }

  /** The comparison is case-sensitive: "gujarat" and "Gujarat" are
      different States. */
  lemma CaseSensitive()
    ensures GetGstType("gujarat", "Gujarat") == IGST
    ensures GetGstType("Gujarat", "Gujarat") == CGST_SGST
    ensures GetGstType("Gujarat", "Maharashtra") == IGST
  {
    assert "gujarat"[0] != "Gujarat"[0];
    assert |"Gujarat"| != |"Maharashtra"|;
  }
}
