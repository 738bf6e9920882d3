/** The address body schema (src/schemas/addAddressSchema.ts): each field
    is a string whose length is checked against a minimum and a maximum and
    which is then trimmed; the complement is optional and only has a
    maximum. The schema library runs a field's checks in the order they are
    written, so the length bounds apply to the text as sent, before it is
    trimmed. A field that is missing is `None` and fails with "Required". */
module AddressSchema {
  import opened Wrappers
  import opened Strings
  import opened Orders
  import opened ErrorHandling

  datatype AddressInput = AddressInput(
    zipcode: Option<string>,
    street: Option<string>,
    number: Option<string>,
    city: Option<string>,
    state: Option<string>,
    country: Option<string>,
    complement: Option<string>)

  /** The messages of the schema's checks. */
  const ComplementTooLongMessage: string := "Complement must not exceed 255 characters"
  const ZipcodeTooShortMessage: string := "Zipcode must be at least 3 characters"
  const ZipcodeTooLongMessage: string := "Zipcode must not exceed 20 characters"
  const StreetRequiredMessage: string := "Street is required"
  const StreetTooLongMessage: string := "Street must not exceed 255 characters"
  const NumberRequiredMessage: string := "Number is required"
  const NumberTooLongMessage: string := "Number must not exceed 20 characters"
  const CityRequiredMessage: string := "City is required"
  const CityTooLongMessage: string := "City must not exceed 100 characters"
  const StateTooShortMessage: string := "State must be at least 2 characters"
  const StateTooLongMessage: string := "State must not exceed 100 characters"
  const CountryTooShortMessage: string := "Country must be at least 2 characters"
  const CountryTooLongMessage: string := "Country must not exceed 100 characters"

  /** `z.string().min(lo, tooShort).max(hi, tooLong).trim()` on one field:
      the messages of the checks that fail, in order. */
  function BoundedIssues(field: string, value: Option<string>, lo: nat, tooShort: string, hi: nat, tooLong: string)
    : (issues: seq<ZodIssue>)
    ensures issues == [] <==> value.Some? && lo <= |value.value| <= hi
  {
    match value
    case None => [ZodIssue([Key(field)], "Required")]
    case Some(s) =>
      (if |s| < lo then [ZodIssue([Key(field)], tooShort)] else [])
      + (if |s| > hi then [ZodIssue([Key(field)], tooLong)] else [])
  }

  /** `z.string().max(255, …).trim().optional()`: absent is fine. */
  function ComplementIssues(value: Option<string>): (issues: seq<ZodIssue>)
    ensures issues == [] <==> value.None? || |value.value| <= 255
  {
    match value
    case None => []
    case Some(s) => if |s| > 255 then [ZodIssue([Key("complement")], ComplementTooLongMessage)] else []
  }

  function AddressIssues(input: AddressInput): seq<ZodIssue> {
    BoundedIssues("zipcode", input.zipcode, 3, ZipcodeTooShortMessage, 20, ZipcodeTooLongMessage)
    + BoundedIssues("street", input.street, 1, StreetRequiredMessage, 255, StreetTooLongMessage)
    + BoundedIssues("number", input.number, 1, NumberRequiredMessage, 20, NumberTooLongMessage)
    + BoundedIssues("city", input.city, 1, CityRequiredMessage, 100, CityTooLongMessage)
    + BoundedIssues("state", input.state, 2, StateTooShortMessage, 100, StateTooLongMessage)
    + BoundedIssues("country", input.country, 2, CountryTooShortMessage, 100, CountryTooLongMessage)
    + ComplementIssues(input.complement)
  }

  /** The bounds every accepted field meets, measured before trimming. */
  predicate WithinBounds(input: AddressInput) {
    && input.zipcode.Some? && 3 <= |input.zipcode.value| <= 20
    && input.street.Some? && 1 <= |input.street.value| <= 255
    && input.number.Some? && 1 <= |input.number.value| <= 20
    && input.city.Some? && 1 <= |input.city.value| <= 100
    && input.state.Some? && 2 <= |input.state.value| <= 100
    && input.country.Some? && 2 <= |input.country.value| <= 100
    && (input.complement.Some? ==> |input.complement.value| <= 255)
  }

  /** The accepted address: every field trimmed. */
  function TrimmedAddress(input: AddressInput): Address
    requires WithinBounds(input)
  {
    Address(
      Trim(input.zipcode.value), Trim(input.street.value), Trim(input.number.value), Trim(input.city.value),
      Trim(input.state.value), Trim(input.country.value),
      match input.complement case Some(c) => Some(Trim(c)) case None => None)
  }

  /** `addAddressSchema.safeParse`: the trimmed address, or every issue found. */
  function ParseAddress(input: AddressInput): (r: Result<Address, seq<ZodIssue>>)
    ensures r.Ok? <==> WithinBounds(input)
    ensures r.Err? ==> r.error != []
    ensures r.Ok? ==> r.value == TrimmedAddress(input)
  {
    var issues := AddressIssues(input);
    if issues != [] then Err(issues) else Ok(TrimmedAddress(input))
  }

  /** Trimming a field within its bound gives a trimmed field within the bound. */
  lemma TrimWithin(s: string, hi: nat)
    requires |s| <= hi
    ensures Trim(Trim(s)) == Trim(s) && |Trim(s)| <= hi
  {
    TrimIdempotent(s);
    TrimProperties(s);
  }

  /** Every field of an accepted address is the trimmed field as sent,
      trimmed for good and no longer than its bound. */
  lemma AcceptedFieldsTrimmed(input: AddressInput)
    requires WithinBounds(input)
    ensures var a := TrimmedAddress(input);
      && a.zipcode == Trim(input.zipcode.value) && Trim(a.zipcode) == a.zipcode && |a.zipcode| <= 20
      && a.street == Trim(input.street.value) && Trim(a.street) == a.street && |a.street| <= 255
      && a.number == Trim(input.number.value) && Trim(a.number) == a.number && |a.number| <= 20
      && a.city == Trim(input.city.value) && Trim(a.city) == a.city && |a.city| <= 100
      && a.state == Trim(input.state.value) && Trim(a.state) == a.state && |a.state| <= 100
      && a.country == Trim(input.country.value) && Trim(a.country) == a.country && |a.country| <= 100
      && (a.complement.Some? <==> input.complement.Some?)
      && (a.complement.Some? ==> (
            && a.complement.value == Trim(input.complement.value)
            && Trim(a.complement.value) == a.complement.value && |a.complement.value| <= 255))
  {
    TrimWithin(input.zipcode.value, 20);
    TrimWithin(input.street.value, 255);
    TrimWithin(input.number.value, 20);
    TrimWithin(input.city.value, 100);
    TrimWithin(input.state.value, 100);
    TrimWithin(input.country.value, 100);
    if input.complement.Some? {
      TrimWithin(input.complement.value, 255);
    }
  }

  /** Because the bounds are checked before trimming, a street of one blank
      passes the StreetRequiredMessage check and is stored empty. */
  lemma BlankStreetAccepted(input: AddressInput)
    requires WithinBounds(input)
    requires input.street == Some(" ")
    ensures ParseAddress(input).Ok? && ParseAddress(input).value.street == ""
  {
    assert TrimStart(" ") == "";
    assert TrimmedAddress(input).street == Trim(" ");
  }

  /** A rejected body reaches the error middleware as a 422 naming each field. */
  lemma RejectedAddressIs422(input: AddressInput, nodeEnv: Option<string>)
    requires ParseAddress(input).Err?
    ensures var h := ErrorHandler(ZodFailure(ParseAddress(input).error), nodeEnv);
      h.status == 422 && h.body.code == "VALIDATION_ERROR" && |h.body.details.items| == |ParseAddress(input).error|
  {
  }
}
