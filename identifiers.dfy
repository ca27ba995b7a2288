/** The phone identifier the auth components build: the local number typed
    by the user with the Saudi country code in front. */
module Identifiers {

  const CountryCode: string := "+966"

  /** `+966${value}`: the prefix is added unconditionally, with no format check. */
  function WithCountryCode(value: string): (r: string)
    ensures |r| == |value| + 4 && r[..4] == CountryCode && r[4..] == value
  {
    CountryCode + value
  }

  /** The prefixing is not idempotent: a value that already carries the
      country code gets it twice. */
  lemma WithCountryCodeNotIdempotent(value: string)
    ensures WithCountryCode(WithCountryCode(value)) != WithCountryCode(value)
  {
    assert |WithCountryCode(WithCountryCode(value))| == |value| + 8;
  }

  /** Different local numbers give different identifiers. */
  lemma WithCountryCodeInjective(a: string, b: string)
    requires WithCountryCode(a) == WithCountryCode(b)
    ensures a == b
  {
    assert a == WithCountryCode(a)[4..];
  }
}
