/**
 * The cache keys of the two key families: the collection key `all_properties`
 * and the per-record keys `property_{id}`, where `{id}` is the identifier
 * written in decimal as Python's `str(int)` writes it.
 */
module CacheKeys {
  import opened Wrappers

  const ALL_PROPERTIES_KEY: string := "all_properties"
  const PROPERTY_KEY_PREFIX: string := "property_"

  predicate IsDigit(c: char)
  {
    '0' <= c <= '9'
  }

  predicate AllDigits(s: string)
  {
    forall i :: 0 <= i < |s| ==> IsDigit(s[i])
  }

  function DigitChar(d: nat): (c: char)
    requires d < 10
    ensures IsDigit(c)
  {
    ('0' as int + d) as char
  }

  /** The number a string of decimal digits denotes. */
  function DigitsValue(s: string): nat
    requires AllDigits(s)
  {
    if s == [] then 0
    else DigitsValue(s[..|s| - 1]) * 10 + (s[|s| - 1] as int - '0' as int)
  }

  /** Decimal digits of `n`, most significant first, no leading zeros. */
  function NatToString(n: nat): (s: string)
    ensures |s| >= 1 && AllDigits(s)
    ensures DigitsValue(s) == n
    ensures s[0] == '0' ==> n == 0
  {
    if n < 10 then
      [DigitChar(n)]
    else
      var prefix := NatToString(n / 10);
      var s := prefix + [DigitChar(n % 10)];
      assert s[..|s| - 1] == prefix;
      s
  }

  /** Python's `str(n)` for an integer: an optional minus sign, then the digits. */
  function IntToString(n: int): (s: string)
    ensures |s| >= 1 && (s[0] == '-' <==> n < 0)
    ensures AllDigits(if n < 0 then s[1..] else s)
  {
    if n < 0 then "-" + NatToString(-n) else NatToString(n)
  }

  /** The inverse of `IntToString` on the strings it produces. */
  function ParseInt(s: string): Option<int>
  {
    if |s| >= 2 && s[0] == '-' && AllDigits(s[1..]) then Some(0 - DigitsValue(s[1..]) as int)
    else if |s| >= 1 && AllDigits(s) then Some(DigitsValue(s) as int)
    else None
  }

  /** The per-record key `property_{id}`. */
  function PropertyKey(id: int): (key: string)
    ensures |key| > |PROPERTY_KEY_PREFIX| && key[..|PROPERTY_KEY_PREFIX|] == PROPERTY_KEY_PREFIX
  {
    PROPERTY_KEY_PREFIX + IntToString(id)
  }

  /** The identifier a per-record key was formed from, or `None` for any other key. */
  function IdOfPropertyKey(key: string): Option<int>
  {
    if |key| >= |PROPERTY_KEY_PREFIX| && key[..|PROPERTY_KEY_PREFIX|] == PROPERTY_KEY_PREFIX then
      ParseInt(key[|PROPERTY_KEY_PREFIX|..])
    else
      None
  }

  /** Decimal formatting of identifiers loses nothing. */
  lemma IntToStringRoundTrip(n: int)
    ensures ParseInt(IntToString(n)) == Some(n)
  {
  }

  /** The identifier is recoverable from its per-record key. */
  lemma PropertyKeyRoundTrip(id: int)
    ensures IdOfPropertyKey(PropertyKey(id)) == Some(id)
  {
  }

  /** Two records share a per-record key exactly when they share an identifier. */
  lemma PropertyKeyInjective(a: int, b: int)
    ensures PropertyKey(a) == PropertyKey(b) <==> a == b
  {
    PropertyKeyRoundTrip(a);
    PropertyKeyRoundTrip(b);
  }

  /** No per-record key is the collection key, so the two families never overwrite each other. */
  lemma PropertyKeyIsNotCollectionKey(id: int)
    ensures PropertyKey(id) != ALL_PROPERTIES_KEY
  {
    PropertyKeyRoundTrip(id);
    assert ALL_PROPERTIES_KEY[..|PROPERTY_KEY_PREFIX|] != PROPERTY_KEY_PREFIX by {
      assert ALL_PROPERTIES_KEY[0] == 'a';
    }
    assert IdOfPropertyKey(ALL_PROPERTIES_KEY) == None;
  }
}
