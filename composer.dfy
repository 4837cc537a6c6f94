/** Composition of the document model (uti/utisli.util.js:68-173): the
    country-keyed consignee table, the country-keyed instruction variables,
    the instruction sentence and `addData`. */
module Composer {
  import opened Wrappers
  import opened LineItems
  import opened Document

  /** Values the module takes from elsewhere: the CCL and TOLL consignee
      addresses, the shipper (USPPI) address, the customer-care e-mail
      address of the configuration and the message of the order-not-found
      error. */
  datatype Config = Config(
    cclAddress: Address,
    tollAddress: Address,
    usppiAddress: Address,
    customerCareEmail: string,
    orderNotFoundMessage: string)

  /** The part of a bulk the composer reads. */
  datatype Bulk = Bulk(destinationCountry: string)

  /** `_.get(table, key, fallback)` on a one-level table. */
  function Lookup<V>(table: map<string, V>, key: string, fallback: V): V
  {
    if key in table then table[key] else fallback
  }

  /** The blank consignee for countries without an importer. */
  const EmptyAddress := Address("", "", "", "", "", "")

  /** `countryToConsignee`. */
  function CountryToConsignee(cfg: Config): map<string, Address>
  {
    map["GB" := cfg.cclAddress, "AU" := cfg.tollAddress]
  }

  function GetConsigneeByCountryCode(cfg: Config, countryCode: string): (r: Address)
    ensures countryCode == "GB" ==> r == cfg.cclAddress
    ensures countryCode == "AU" ==> r == cfg.tollAddress
    ensures countryCode != "GB" && countryCode != "AU" ==>
              r.company == r.streetName == r.houseNo == r.postcode == r.city == r.country == ""
  {
    Lookup(CountryToConsignee(cfg), countryCode, EmptyAddress)
  }

  /** The values substituted into the instruction sentence. */
  datatype InstructionVars = InstructionVars(
    airport: string,
    importer: string,
    importerPhone: string,
    contactEmail: string)

  /** `instructionVarsByCountry`. */
  function InstructionVarsByCountry(email: string): map<string, InstructionVars>
  {
    map["GB" := InstructionVars("Heathrow", "CCL", "+44 208 231 0900", email),
        "AU" := InstructionVars("Sydney", "Toll", "+61 2 9364 5555", email)]
  }

  /** The instruction variables of a destination; GB's for any country
      without an entry. */
  function InstructionVarsFor(countryCode: string, email: string): (r: InstructionVars)
    ensures r.contactEmail == email
    ensures countryCode == "AU" ==>
              r.airport == "Sydney" && r.importer == "Toll" && r.importerPhone == "+61 2 9364 5555"
    ensures countryCode != "AU" ==>
              r.airport == "Heathrow" && r.importer == "CCL" && r.importerPhone == "+44 208 231 0900"
  {
    var table := InstructionVarsByCountry(email);
    Lookup(table, countryCode, table["GB"])
  }

  // The fixed text of the instruction template around its four placeholders.
  const Opening := "In "
  const AfterAirport := ", "
  const AfterImporter := " is taking over this shipment: "
  const AfterPhone := ". " + "In case of any questions or issues at any time of the transport please contact BorderGuru by email "
  const Closing := "."

  /** The instruction sentence with the variables substituted. */
  function InstructionText(v: InstructionVars): string
  {
    Opening + (v.airport + (AfterAirport + (v.importer + (AfterImporter
      + (v.importerPhone + (AfterPhone + (v.contactEmail + Closing)))))))
  }

  /** `sep` occurs in `s` at index k. */
  predicate OccursAt(s: string, sep: string, k: nat)
  {
    k + |sep| <= |s| && s[k..k + |sep|] == sep
  }

  /** The first index at or after `from` where `sep` occurs in `s`. */
  function IndexOf(s: string, sep: string, from: nat): (r: Option<nat>)
    requires from <= |s|
    ensures r.Some? ==> from <= r.value && OccursAt(s, sep, r.value)
    ensures r.Some? ==> forall k :: from <= k < r.value ==> !OccursAt(s, sep, k)
    ensures r.None? ==> forall k :: from <= k ==> !OccursAt(s, sep, k)
    decreases |s| - from
  {
    if from + |sep| > |s| then None
    else if s[from..from + |sep|] == sep then Some(from)
    else IndexOf(s, sep, from + 1)
  }

  /** The text before the first `sep` and the text after it. */
  function Split(s: string, sep: string): Option<(string, string)>
  {
    match IndexOf(s, sep, 0)
    case None => None
    case Some(j) => Some((s[..j], s[j + |sep|..]))
  }

  /** Reads the four variables back out of an instruction sentence. */
  function ParseInstruction(s: string): Option<InstructionVars>
  {
    if |s| < |Opening| || s[..|Opening|] != Opening then None
    else match Split(s[|Opening|..], AfterAirport)
      case None => None
      case Some((airport, rest)) => ParseAfterAirport(airport, rest)
  }

  function ParseAfterAirport(airport: string, s: string): Option<InstructionVars>
  {
    match Split(s, AfterImporter)
    case None => None
    case Some((importer, rest)) => ParseAfterImporter(airport, importer, rest)
  }

  function ParseAfterImporter(airport: string, importer: string, s: string): Option<InstructionVars>
  {
    match Split(s, AfterPhone)
    case None => None
    case Some((phone, rest)) =>
      if |rest| > 0 && rest[|rest| - 1] == Closing[0]
      then Some(InstructionVars(airport, importer, phone, rest[..|rest| - 1]))
      else None
  }

  lemma {:induction false} IndexOfPastFreePrefix(a: string, sep: string, b: string, from: nat)
    requires |sep| > 0 && from <= |a|
    requires forall k :: from <= k < |a| ==> a[k] != sep[0]
    ensures IndexOf(a + (sep + b), sep, from) == Some(|a|)
    decreases |a| - from
  {
    var s := a + (sep + b);
    if from < |a| {
      assert s[from..from + |sep|][0] == a[from];
      IndexOfPastFreePrefix(a, sep, b, from + 1);
    } else {
      assert s[from..from + |sep|] == sep;
    }
  }

  /** Splitting at a separator whose first character does not occur before it. */
  lemma SplitJoin(a: string, sep: string, b: string)
    requires |sep| > 0
    requires forall k :: 0 <= k < |a| ==> a[k] != sep[0]
    ensures Split(a + (sep + b), sep) == Some((a, b))
  {
    IndexOfPastFreePrefix(a, sep, b, 0);
    var s := a + (sep + b);
    assert s[..|a|] == a;
    assert s[|a| + |sep|..] == b;
  }

  /** The variables can be substituted without ambiguity: no ',' in the
      airport, no ' ' in the importer, no '.' in the phone number. */
  predicate Unambiguous(v: InstructionVars)
  {
    (forall k :: 0 <= k < |v.airport| ==> v.airport[k] != ',')
    && (forall k :: 0 <= k < |v.importer| ==> v.importer[k] != ' ')
    && (forall k :: 0 <= k < |v.importerPhone| ==> v.importerPhone[k] != '.')
  }

  lemma ParseAfterImporterOf(v: InstructionVars)
    requires forall k :: 0 <= k < |v.importerPhone| ==> v.importerPhone[k] != '.'
    ensures ParseAfterImporter(v.airport, v.importer,
              v.importerPhone + (AfterPhone + (v.contactEmail + Closing))) == Some(v)
  {
    var tail := v.contactEmail + Closing;
    assert AfterPhone[0] == '.';
    SplitJoin(v.importerPhone, AfterPhone, tail);
    assert tail[..|tail| - 1] == v.contactEmail;
  }

  lemma ParseAfterAirportOf(v: InstructionVars)
    requires Unambiguous(v)
    ensures ParseAfterAirport(v.airport, v.importer + (AfterImporter
              + (v.importerPhone + (AfterPhone + (v.contactEmail + Closing))))) == Some(v)
  {
    assert AfterImporter[0] == ' ';
    SplitJoin(v.importer, AfterImporter, v.importerPhone + (AfterPhone + (v.contactEmail + Closing)));
    ParseAfterImporterOf(v);
  }

  /** The sentence carries exactly the substituted variables: reading them
      back gives the variables that were put in. */
  lemma InstructionRoundTrip(v: InstructionVars)
    requires Unambiguous(v)
    ensures ParseInstruction(InstructionText(v)) == Some(v)
  {
    var tail := AfterAirport + (v.importer + (AfterImporter
      + (v.importerPhone + (AfterPhone + (v.contactEmail + Closing)))));
    var s := InstructionText(v);
    assert s == Opening + (v.airport + tail);
    assert s[..|Opening|] == Opening;
    assert s[|Opening|..] == v.airport + tail;
    assert AfterAirport[0] == ',';
    SplitJoin(v.airport, AfterAirport, v.importer + (AfterImporter
      + (v.importerPhone + (AfterPhone + (v.contactEmail + Closing)))));
    ParseAfterAirportOf(v);
  }

  /** Every destination's instruction variables substitute unambiguously,
      whatever the contact address. */
  lemma InstructionVarsUnambiguous(countryCode: string, email: string)
    ensures Unambiguous(InstructionVarsFor(countryCode, email))
  {
  }

  /** The instruction sentence of a destination. */
  function Instruction(countryCode: string, email: string): (r: string)
    ensures ParseInstruction(r) == Some(InstructionVarsFor(countryCode, email))
  {
    InstructionVarsUnambiguous(countryCode, email);
    InstructionRoundTrip(InstructionVarsFor(countryCode, email));
    InstructionText(InstructionVarsFor(countryCode, email))
  }

  /** The intermediate consignee of every letter. */
  const IntermediateConsignee := Address("Direct", "", "", "", "", "")

  /** `addData`: a fresh model from the orders and the bulk, whose computed
      fields are the destination, its consignee and its instructions; the
      declared value is left blank for the helper, the indicator is "No",
      the orders are passed through and there are no composed items yet. */
  function AddData(ordersInBulk: seq<Order>, bulk: Bulk, cfg: Config): (r: DocumentModel)
    ensures r.additionalInfo.countryOfUltimateDestination == bulk.destinationCountry
    ensures r.addresses.ultimateConsignee == GetConsigneeByCountryCode(cfg, bulk.destinationCountry)
    ensures ParseInstruction(r.additionalInfo.instructionsToForwarder)
         == Some(InstructionVarsFor(bulk.destinationCountry, cfg.customerCareEmail))
    ensures r.additionalInfo.declaredValueForCarriage == Blank
    ensures r.additionalInfo.smeIndicator == "No"
    ensures r.orders == ordersInBulk
    ensures r.lineItems == None
  {
    DocumentModel(
      Addresses(cfg.usppiAddress,
                GetConsigneeByCountryCode(cfg, bulk.destinationCountry),
                IntermediateConsignee),
      AdditionalInfo("No",
                     bulk.destinationCountry,
                     Instruction(bulk.destinationCountry, cfg.customerCareEmail),
                     Blank),
      ordersInBulk,
      None)
  }
}
