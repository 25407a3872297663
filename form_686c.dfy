/**
 * The prefill profile of the 686c-674 dependents form (version 2): the
 * form address taken from the veteran's VA Profile mailing address, the
 * form metadata, and the last four digits of the VA file number.
 */
module Form686c {
  import opened Wrappers
  import opened Json
  import opened Text

  /** The address attributes the form address keeps, besides `country_name`. */
  const AddressKeys: seq<string> := ["address_line1", "address_line2", "address_line3", "city",
                                     "state_code", "province", "zip_code", "international_postal_code"]

  /** A VA Profile mailing address: its attributes (`to_h`) and its ISO-3 country code. */
  datatype MailingAddress = MailingAddress(attributes: seq<Field>, countryCodeIso3: Json)

  /** What the contact-information lookup gives: it raised, or the mailing address (nil allowed). */
  datatype MailingLookup = Raised | Found(address: Option<MailingAddress>)

  /** The form address: the listed attributes, then `country_name` from the ISO-3 code. */
  function FormAddressOf(a: MailingAddress): seq<Field> {
    Put(Slice(a.attributes, AddressKeys), "country_name", a.countryCodeIso3)
  }

  /**
   * The form address holds exactly the listed attributes the address has,
   * with their values, and `country_name`, which is the ISO-3 code and never
   * the address's own country name.
   */
  lemma FormAddressKeys(a: MailingAddress, k: string)
    ensures Has(FormAddressOf(a), k) <==> k == "country_name" || (k in AddressKeys && Has(a.attributes, k))
    ensures At(FormAddressOf(a), "country_name") == a.countryCodeIso3
    ensures k in AddressKeys ==> At(FormAddressOf(a), k) == At(a.attributes, k)
  {
    SliceEntry(a.attributes, AddressKeys, k);
    if k != "country_name" {
      PutOther(Slice(a.attributes, AddressKeys), "country_name", a.countryCodeIso3, k);
    }
  }

  /**
   * `prefill_form_address`: the lookup is made only for a present
   * vet360 id; a lookup that raises, or a nil address, sets nothing.
   */
  function PrefilledAddress(vet360Id: Option<string>, lookup: MailingLookup): Option<seq<Field>> {
    if !Present(vet360Id) then None
    else if lookup.Raised? || lookup.address.None? then None
    else Some(FormAddressOf(lookup.address.value))
  }

  /** An address is set exactly when there is a vet360 id and the lookup found a mailing address. */
  lemma PrefilledAddressCases(vet360Id: Option<string>, lookup: MailingLookup, other: MailingLookup)
    ensures PrefilledAddress(vet360Id, lookup).Some? <==> Present(vet360Id) && lookup.Found? && lookup.address.Some?
    ensures !Present(vet360Id) ==> PrefilledAddress(vet360Id, lookup) == PrefilledAddress(vet360Id, other)
  {
  }

  /** `metadata`. */
  const Metadata: seq<Field> := [
    Field("version", JNum(0)),
    Field("prefill", JBool(true)),
    Field("returnUrl", JStr("/686-options-selection"))]

  /**
   * `va_file_number_last_four`: the last four characters of the file number
   * BGS reports when present, else of the user's SSN when present, else nil.
   */
  function VaFileNumberLastFour(fileNumber: Option<string>, ssn: Option<string>): (r: Option<string>)
    ensures r.Some? <==> Present(fileNumber) || Present(ssn)
  {
    if Present(fileNumber) then Some(Last(fileNumber.value, 4))
    else if Present(ssn) then Some(Last(ssn.value, 4))
    else None
  }

  /** The result ends the number it came from and has at most four characters; the file number wins. */
  lemma LastFourOfChosen(fileNumber: Option<string>, ssn: Option<string>)
    requires VaFileNumberLastFour(fileNumber, ssn).Some?
    ensures var r := VaFileNumberLastFour(fileNumber, ssn).value;
      var source := if Present(fileNumber) then fileNumber.value else ssn.value;
      |r| <= 4 && EndsWith(source, r) && (|source| >= 4 ==> |r| == 4)
  {
    var r := VaFileNumberLastFour(fileNumber, ssn).value;
    var source := if Present(fileNumber) then fileNumber.value else ssn.value;
    assert source[|source| - |r|..] == r;
  }

  /** The form profile of one user, with the form address `prefill` sets. */
  class Profile {
    var formAddress: Option<seq<Field>>

    constructor()
      ensures formAddress.None?
    {
      formAddress := None;
    }

    /** `prefill`: the form address first (the generic prefill that follows is not modelled). */
    method Prefill(vet360Id: Option<string>, lookup: MailingLookup)
      modifies this
      ensures formAddress == if PrefilledAddress(vet360Id, lookup).Some? then PrefilledAddress(vet360Id, lookup) else old(formAddress)
    {
      var mailing: Option<MailingAddress> := None;
      if Present(vet360Id) && lookup.Found? {
        mailing := lookup.address;
      }
      if mailing.None? {
        return;
      }
      formAddress := Some(FormAddressOf(mailing.value));
    }
  }
}
