/**
 The `address_family` parameter of an `<entry>` section: the conversion block
 that turns the configured text into the address family handed to the
 resolver. `ipv4` and `ipv6` are accepted in any letter case; any other text
 is a configuration error; an absent parameter leaves the family unspecified.
 */
module AddressFamily {
  import opened Optional

  /** The family passed to the resolver (AF_UNSPEC, AF_INET, AF_INET6). */
  datatype Family = Unspecified | Inet | Inet6

  /** Outcome of converting one configuration value. */
  datatype Parsed<T> = Ok(value: T) | ConfigError(message: string)

  /** Lower-cases one ASCII letter; every other character is kept. */
  function LowerChar(c: char): char
  {
    if 'A' <= c <= 'Z' then (c as int - 'A' as int + 'a' as int) as char else c
  }

  /** Ruby's `String#downcase`, restricted to ASCII letters. */
  function Downcase(s: string): (r: string)
    ensures |r| == |s|
    ensures forall i :: 0 <= i < |s| ==> r[i] == LowerChar(s[i])
  {
    if s == [] then [] else [LowerChar(s[0])] + Downcase(s[1..])
  }

  /** The conversion block applied to a value that is present. */
  function ParseFamilyText(val: string): Parsed<Family>
  {
    var lower := Downcase(val);
    if lower == "ipv4" then Ok(Inet)
    else if lower == "ipv6" then Ok(Inet6)
    else ConfigError("Unsupported parameter value: " + val)
  }

  /** The parameter as a whole: absent means unspecified (the default `nil`). */
  function ParseFamily(val: Option<string>): Parsed<Family>
  {
    match val
    case None => Ok(Unspecified)
    case Some(text) => ParseFamilyText(text)
  }

  /** A string that some spelling of `name` (in any letter case) lowers to. */
  predicate SpellsIgnoringCase(val: string, name: string)
  {
    Downcase(val) == name
  }

  /** Lowering twice is lowering once. */
  lemma DowncaseIdempotent(s: string)
    ensures Downcase(Downcase(s)) == Downcase(s)
  {
  }

  /** Acceptance is exactly the two names, in any letter case; the error
      message quotes the value as it was written. */
  lemma ParseFamilyTextCases(val: string)
    ensures ParseFamilyText(val) == Ok(Inet) <==> SpellsIgnoringCase(val, "ipv4")
    ensures ParseFamilyText(val) == Ok(Inet6) <==> SpellsIgnoringCase(val, "ipv6")
    ensures ParseFamilyText(val).ConfigError? <==>
              !SpellsIgnoringCase(val, "ipv4") && !SpellsIgnoringCase(val, "ipv6")
    ensures ParseFamilyText(val).ConfigError? ==>
              ParseFamilyText(val).message == "Unsupported parameter value: " + val
    ensures ParseFamilyText(val) != Ok(Unspecified)
  {
  }

  /** Letter case never matters: a value and its lower-case form convert alike. */
  lemma CaseInsensitive(val: string)
    ensures ParseFamilyText(val).Ok? <==> ParseFamilyText(Downcase(val)).Ok?
    ensures ParseFamilyText(val).Ok? ==> ParseFamilyText(val) == ParseFamilyText(Downcase(val))
  {
    DowncaseIdempotent(val);
  }

  /** Mixed-case spellings as they appear in configuration files. */
  lemma UpperCaseAccepted()
    ensures ParseFamily(Some("IPv4")) == Ok(Inet)
    ensures ParseFamily(Some("IPV6")) == Ok(Inet6)
    ensures ParseFamily(Some("ipv5")).ConfigError?
    ensures ParseFamily(None) == Ok(Unspecified)
  {
    assert Downcase("IPv4") == "ipv4";
    assert Downcase("IPV6") == "ipv6";
    assert Downcase("ipv5")[3] == '5';
  }
}
