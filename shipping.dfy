/** Shipping quotes (src/services/shipping.ts): a zipcode is reduced to its
    digits, looked up in the ViaCEP address service, and the state of the
    address picks one of four zones (or the default) with a fixed cost and
    delivery time. */
module Shipping {
  import opened Wrappers
  import opened Strings

  /** The ViaCEP reply; `erro` is set when the service does not know the zipcode. */
  datatype ViaCepResponse = ViaCepResponse(
    cep: string,
    logradouro: string,
    complemento: string,
    bairro: string,
    localidade: string,
    uf: string,
    ibge: string,
    gia: string,
    ddd: string,
    siafi: string,
    erro: bool)

  /** The address service as the model sees it: the reply for each formatted
      zipcode it answers; a zipcode with no entry is a request that failed
      (network error, timeout, non-2xx reply). */
  type ViaCep = map<string, ViaCepResponse>

  datatype ShippingCalculation = ShippingCalculation(cost: int, days: int, city: string, state: string)

  datatype Zone = Zone1 | Zone2 | Zone3 | Zone4 | DefaultZone

  datatype Rate = Rate(cost: int, days: int)

  /** Southeast, the closest zone. */
  const Zone1States: seq<string> := ["SP", "RJ", "MG", "ES"]
  /** South and Central-West. */
  const Zone2States: seq<string> := ["PR", "SC", "RS", "GO", "DF", "MT", "MS"]
  /** Northeast. */
  const Zone3States: seq<string> := ["BA", "SE", "AL", "PE", "PB", "RN", "CE", "PI", "MA"]
  /** North, the farthest zone. */
  const Zone4States: seq<string> := ["AM", "RR", "AP", "PA", "TO", "RO", "AC"]

  /** `zipcode.replace(/\D/g, "")`: keeps the decimal digits, in order. */
  function FormatZipcode(zipcode: string): (r: string)
    ensures |r| <= |zipcode|
    ensures forall i | 0 <= i < |r| :: IsDigit(r[i])
    ensures forall c | c in zipcode && IsDigit(c) :: c in r
  {
    if zipcode == [] then []
    else
      var rest := FormatZipcode(zipcode[..|zipcode| - 1]);
      var last := zipcode[|zipcode| - 1];
      assert zipcode == zipcode[..|zipcode| - 1] + [last];
      if IsDigit(last) then rest + [last] else rest
  }

  /** A string of digits only is left as it is. */
  lemma {:induction false} FormatZipcodeOfDigits(zipcode: string)
    requires forall i | 0 <= i < |zipcode| :: IsDigit(zipcode[i])
    ensures FormatZipcode(zipcode) == zipcode
  {
    if zipcode != [] {
      FormatZipcodeOfDigits(zipcode[..|zipcode| - 1]);
      assert zipcode == zipcode[..|zipcode| - 1] + [zipcode[|zipcode| - 1]];
    }
  }

  lemma FormatZipcodeIdempotent(zipcode: string)
    ensures FormatZipcode(FormatZipcode(zipcode)) == FormatZipcode(zipcode)
  {
    FormatZipcodeOfDigits(FormatZipcode(zipcode));
  }

  /** Formatting works piece by piece: `"01310-100"` is `"01310"` followed by `"100"`. */
  lemma {:induction false} FormatZipcodeAppend(a: string, b: string)
    ensures FormatZipcode(a + b) == FormatZipcode(a) + FormatZipcode(b)
  {
    if b == [] {
      assert a + b == a;
    } else {
      var b' := b[..|b| - 1];
      assert (a + b)[..|a + b| - 1] == a + b';
      FormatZipcodeAppend(a, b');
    }
  }

  /** `getAddressFromZipcode`: `null` for a formatted zipcode that is not eight
      digits long (the service is not asked), for a failed request, and for a
      reply flagged `erro`; otherwise the reply. */
  function GetAddressFromZipcode(zipcode: string, viaCep: ViaCep): (r: Option<ViaCepResponse>)
    ensures r.Some? <==> (
      var z := FormatZipcode(zipcode);
      |z| == 8 && z in viaCep && !viaCep[z].erro)
    ensures r.Some? ==> r.value == viaCep[FormatZipcode(zipcode)]
  {
    var formatted := FormatZipcode(zipcode);
    if |formatted| != 8 then None
    else if formatted !in viaCep then None
    else
      var data := viaCep[formatted];
      if data.erro then None else Some(data)
  }

  /** Separators and spaces in the zipcode do not change the address found. */
  lemma AddressIgnoresFormatting(zipcode: string, viaCep: ViaCep)
    ensures GetAddressFromZipcode(FormatZipcode(zipcode), viaCep) == GetAddressFromZipcode(zipcode, viaCep)
  {
    FormatZipcodeIdempotent(zipcode);
  }

  /** `getShippingZone`: the first zone whose list holds the upper-cased state. */
  function GetShippingZone(state: string): (z: Zone)
    ensures z == Zone1 <==> Upper(state) in Zone1States
    ensures z == Zone2 <==> Upper(state) in Zone2States
    ensures z == Zone3 <==> Upper(state) in Zone3States
    ensures z == Zone4 <==> Upper(state) in Zone4States
    ensures z == DefaultZone <==> (
      && Upper(state) !in Zone1States && Upper(state) !in Zone2States
      && Upper(state) !in Zone3States && Upper(state) !in Zone4States)
  {
    ZonesDisjoint(Upper(state));
    var stateUpper := Upper(state);
    if stateUpper in Zone1States then Zone1
    else if stateUpper in Zone2States then Zone2
    else if stateUpper in Zone3States then Zone3
    else if stateUpper in Zone4States then Zone4
    else DefaultZone
  }

  /** No state is listed in two zones, so the order of the tests does not matter. */
  lemma ZonesDisjoint(s: string)
    ensures s in Zone1States ==> s !in Zone2States && s !in Zone3States && s !in Zone4States
    ensures s in Zone2States ==> s !in Zone3States && s !in Zone4States
    ensures s in Zone3States ==> s !in Zone4States
  {
  }

  /** The zone does not depend on the letter case of the state. */
  lemma ZoneIgnoresCase(state: string)
    ensures GetShippingZone(Lower(state)) == GetShippingZone(state)
  {
    UpperOfLower(state);
  }

  /** `SHIPPING_RATES`. */
  function RateOf(zone: Zone): Rate {
    match zone
    case Zone1 => Rate(7, 3)
    case Zone2 => Rate(12, 5)
    case Zone3 => Rate(15, 7)
    case Zone4 => Rate(20, 10)
    case DefaultZone => Rate(10, 5)
  }

  /** `calculateShipping`: `null` exactly when no address is found; otherwise
      the rate of the address's state, with its city and state. */
  function CalculateShipping(zipcode: string, viaCep: ViaCep): (r: Option<ShippingCalculation>)
    ensures r.None? <==> GetAddressFromZipcode(zipcode, viaCep).None?
    ensures r.Some? ==>
      var address := GetAddressFromZipcode(zipcode, viaCep).value;
      && r.value.city == address.localidade
      && r.value.state == address.uf
      && Rate(r.value.cost, r.value.days) == RateOf(GetShippingZone(address.uf))
  {
    match GetAddressFromZipcode(zipcode, viaCep)
    case None => None
    case Some(address) =>
      var rates := RateOf(GetShippingZone(address.uf));
      Some(ShippingCalculation(rates.cost, rates.days, address.localidade, address.uf))
  }

  /** Every quote is one of the five listed rates, and a state in an outer
      zone never ships faster or cheaper than one in the Southeast. */
  lemma QuoteIsListed(zipcode: string, viaCep: ViaCep)
    requires CalculateShipping(zipcode, viaCep).Some?
    ensures var q := CalculateShipping(zipcode, viaCep).value;
      && Rate(q.cost, q.days) in [Rate(7, 3), Rate(12, 5), Rate(15, 7), Rate(20, 10), Rate(10, 5)]
      && q.cost >= 7 && q.days >= 3
      && (q.cost == 7 <==> Upper(q.state) in Zone1States)
  {
  }

  /** A São Paulo address, written in any case, ships for 7 in 3 days. */
  lemma SaoPauloQuote(zipcode: string, viaCep: ViaCep, state: string)
    requires GetAddressFromZipcode(zipcode, viaCep).Some?
    requires GetAddressFromZipcode(zipcode, viaCep).value.uf == state
    requires Upper(state) == "SP"
    ensures CalculateShipping(zipcode, viaCep).value.cost == 7
    ensures CalculateShipping(zipcode, viaCep).value.days == 3
  {
  }
}
