/**
 * Address text in the two sighting maps: the labels built from a reverse-geocoding
 * result, and the address composed from the form's street, number and district fields.
 * A component that is `undefined`, `null` or `""` is falsy in the source; all three are
 * the empty string here.
 */
module Addresses {
  import opened Wrappers
  import opened Text

  /** The `address` object of a Nominatim result, reduced to the fields the labels read. */
  datatype Address = Address(road: string, street: string, houseNumber: string, suburb: string,
                             neighbourhood: string, city: string)

  /** `parts.join(sep)`. */
  function JoinWith(parts: seq<string>, sep: string): string
  {
    if parts == [] then ""
    else if |parts| == 1 then parts[0]
    else JoinWith(parts[..|parts| - 1], sep) + sep + parts[|parts| - 1]
  }

  /** The street part: `road || street`, followed by `", " + house_number` when there is one. */
  function StreetLine(a: Address): Option<string>
  {
    if a.road != "" || a.street != "" then
      var name := if a.road != "" then a.road else a.street;
      Some(if a.houseNumber != "" then name + ", " + a.houseNumber else name)
    else None
  }

  /** The district part: `suburb || neighbourhood`. */
  function District(a: Address): Option<string>
  {
    if a.suburb != "" || a.neighbourhood != "" then Some(if a.suburb != "" then a.suburb else a.neighbourhood)
    else None
  }

  function CityPart(a: Address): Option<string>
  {
    if a.city != "" then Some(a.city) else None
  }

  /** The present parts, in order. */
  function Present(parts: seq<Option<string>>): (r: seq<string>)
    ensures |r| <= |parts|
  {
    if parts == [] then []
    else (if parts[0].Some? then [parts[0].value] else []) + Present(parts[1..])
  }

  /** A part is kept exactly when it is present. */
  lemma {:induction false} PresentMembers(parts: seq<Option<string>>)
    ensures forall x :: x in Present(parts) <==> Some(x) in parts
  {
    if parts != [] {
      PresentMembers(parts[1..]);
      assert parts == [parts[0]] + parts[1..];
    }
  }

  /** `formatAddress`: the street part and the district, joined with `" - "`. */
  function FormatAddress(a: Address): string
  {
    JoinWith(Present([StreetLine(a), District(a)]), " - ")
  }

  /** `formatCompleteAddress`: the street part, the district and the city, joined with `", "`. */
  function FormatCompleteAddress(a: Address): string
  {
    JoinWith(Present([StreetLine(a), District(a), CityPart(a)]), ", ")
  }

  lemma JoinTwo(x: string, y: string, sep: string)
    ensures JoinWith([x, y], sep) == x + sep + y
  {
    assert [x, y][..1] == [x];
  }

  lemma JoinThree(x: string, y: string, z: string, sep: string)
    ensures JoinWith([x, y, z], sep) == x + sep + y + sep + z
  {
    assert [x, y, z][..2] == [x, y];
    JoinTwo(x, y, sep);
  }

  /**
   * The short label, case by case: both parts with `" - "` between them, a single part on
   * its own, and the empty string when the result has neither a street nor a district.
   */
  lemma FormatAddressCases(a: Address)
    ensures var s, d := StreetLine(a), District(a);
      FormatAddress(a) == (if s.Some? && d.Some? then s.value + " - " + d.value
                           else if s.Some? then s.value
                           else if d.Some? then d.value
                           else "")
  {
    var s, d := StreetLine(a), District(a);
    assert [s, d][1..] == [d];
    assert [d][1..] == [];
    assert Present([d]) == (if d.Some? then [d.value] else []);
    assert Present([s, d]) == (if s.Some? then [s.value] else []) + Present([d]);
    if s.Some? && d.Some? {
      assert Present([s, d]) == [s.value, d.value];
      JoinTwo(s.value, d.value, " - ");
    }
  }

  /**
   * The full label: the present parts among street, district and city, in that order,
   * with `", "` between consecutive ones; empty when none is present.
   */
  lemma {:induction false} FormatCompleteAddressCases(a: Address)
    ensures var s, d, c := StreetLine(a), District(a), CityPart(a);
      FormatCompleteAddress(a) == JoinWith((if s.Some? then [s.value] else []) + (if d.Some? then [d.value] else [])
                                           + (if c.Some? then [c.value] else []), ", ")
    ensures FormatCompleteAddress(a) == "" <==> StreetLine(a).None? && District(a).None? && CityPart(a).None?
  {
    var s, d, c := StreetLine(a), District(a), CityPart(a);
    assert [s, d, c][1..] == [d, c];
    assert [d, c][1..] == [c];
    assert [c][1..] == [];
    assert Present([c]) == (if c.Some? then [c.value] else []);
    assert Present([d, c]) == (if d.Some? then [d.value] else []) + Present([c]);
    assert Present([s, d, c]) == (if s.Some? then [s.value] else []) + Present([d, c]);
    var parts := (if s.Some? then [s.value] else []) + (if d.Some? then [d.value] else []) + (if c.Some? then [c.value] else []);
    assert Present([s, d, c]) == parts;
    if s.Some? && d.Some? && c.Some? {
      JoinThree(s.value, d.value, c.value, ", ");
    } else if |parts| == 2 {
      JoinTwo(parts[0], parts[1], ", ");
    }
    if parts != [] {
      JoinNonEmpty(parts, ", ");
    }
  }

  /** A join of non-empty parts is non-empty. */
  lemma {:induction false} JoinNonEmpty(parts: seq<string>, sep: string)
    requires parts != [] && forall i :: 0 <= i < |parts| ==> parts[i] != ""
    ensures JoinWith(parts, sep) != ""
  {
    if |parts| > 1 {
      JoinNonEmpty(parts[..|parts| - 1], sep);
    }
  }

  /** The street used is `road` when there is one; `street` only stands in for a missing road. */
  lemma RoadBeforeStreet(a: Address, other: string)
    requires a.road != ""
    ensures StreetLine(a.(street := other)) == StreetLine(a)
    ensures FormatAddress(a.(street := other)) == FormatAddress(a)
  {
  }

  /** Without a street there is no house number in either label. */
  lemma NumberNeedsStreet(a: Address, n: string)
    requires a.road == "" && a.street == ""
    ensures FormatAddress(a.(houseNumber := n)) == FormatAddress(a)
    ensures FormatCompleteAddress(a.(houseNumber := n)) == FormatCompleteAddress(a)
  {
  }

  /** The city never appears in the short label. */
  lemma ShortLabelIgnoresCity(a: Address, city: string)
    ensures FormatAddress(a.(city := city)) == FormatAddress(a)
  {
  }

  const CITY_SUFFIX := ", Porto Alegre"

  /**
   * `enderecoCompleto` in the sighting form: empty unless a street is typed; then the
   * street, `", " + number` and `" - " + district` when given, and `", Porto Alegre"`.
   */
  function ComposedAddress(logradouro: string, numero: string, bairro: string): string
  {
    if logradouro == "" then ""
    else
      logradouro + (if numero != "" then ", " + numero else "") + (if bairro != "" then " - " + bairro else "")
      + CITY_SUFFIX
  }

  /** The composed address is empty exactly when no street was typed; otherwise it starts with the street and ends with the city. */
  lemma ComposedAddressShape(logradouro: string, numero: string, bairro: string)
    ensures var e := ComposedAddress(logradouro, numero, bairro);
      (e == "" <==> logradouro == "")
      && (logradouro != "" ==> StartsWith(e, logradouro) && EndsWith(e, CITY_SUFFIX))
  {
    var e := ComposedAddress(logradouro, numero, bairro);
    if logradouro != "" {
      var mid := (if numero != "" then ", " + numero else "") + (if bairro != "" then " - " + bairro else "");
      assert e == logradouro + mid + CITY_SUFFIX;
      assert e[..|logradouro|] == logradouro;
      assert e[|e| - |CITY_SUFFIX|..] == CITY_SUFFIX;
    }
  }

  /** The three fields in full: street, number and district all given. */
  lemma ComposedAddressFull(logradouro: string, numero: string, bairro: string)
    requires logradouro != "" && numero != "" && bairro != ""
    ensures ComposedAddress(logradouro, numero, bairro) == logradouro + ", " + numero + " - " + bairro + ", Porto Alegre"
  {
  }

  /** `enderecoCompleto || endereco || null`: the composed address, else the free-text field, else none. */
  function StoredAddress(composed: string, typed: string): (r: Option<string>)
    ensures r.Some? ==> r.value != ""
    ensures r.None? <==> composed == "" && typed == ""
  {
    if composed != "" then Some(composed) else if typed != "" then Some(typed) else None
  }
}
