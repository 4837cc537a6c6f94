/** The document model that the Shipper's Letter of Instruction is rendered
    from (the object built in uti/utisli.util.js:121-170 and later extended by
    the `init` helper). Only the fields the code computes are kept; the fixed
    literal customs fields are not part of this model. */
module Document {
  import opened Wrappers
  import opened LineItems

  datatype Address = Address(
    company: string,
    streetName: string,
    houseNo: string,
    postcode: string,
    city: string,
    country: string)

  datatype Addresses = Addresses(
    usppi: Address,
    ultimateConsignee: Address,
    intermediateConsignee: Address)

  /** `declaredValueForCarriage`: the blank placeholder `''` until the helper
      writes the numeric total. */
  datatype Declared = Blank | Amount(value: int)

  datatype AdditionalInfo = AdditionalInfo(
    smeIndicator: string,
    countryOfUltimateDestination: string,
    instructionsToForwarder: string,
    declaredValueForCarriage: Declared)

  /** `lineItems` is absent (`None`) until the helper stores the composed items. */
  datatype DocumentModel = DocumentModel(
    addresses: Addresses,
    additionalInfo: AdditionalInfo,
    orders: seq<Order>,
    lineItems: Option<seq<LineItem>>)
}
