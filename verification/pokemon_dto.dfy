/** The display record built from an API item: capitalised name and tenths shown with units. */
module PokemonDto {
  import opened Wrappers
  import opened Decimal

  /** `toUpperCase` on one character, restricted to ASCII letters. */
  function UpperAscii(c: char): (r: char)
    ensures 'a' <= c <= 'z' ==> 'A' <= r <= 'Z' && r as int + 32 == c as int
    ensures !('a' <= c <= 'z') ==> r == c
  {
    if 'a' <= c <= 'z' then (c as int - 32) as char else c
  }

  /** Upper-cases the first character only; the rest is kept as is. */
  function FormatPokemonName(name: string): (r: string)
    ensures |r| == |name|
    ensures name == "" ==> r == ""
    ensures |name| > 0 ==> r[0] == UpperAscii(name[0]) && r[1..] == name[1..]
  {
    if name == [] then [] else [UpperAscii(name[0])] + name[1..]
  }

  lemma FormatPokemonNameIdempotent(name: string)
    ensures FormatPokemonName(FormatPokemonName(name)) == FormatPokemonName(name)
  {
  }

  lemma FormatPokemonNameExample()
    ensures FormatPokemonName("pikachu") == "Pikachu"
    ensures FormatPokemonName("Mr. Mime") == "Mr. Mime"
  {
  }

  /**
   * `(n / 10).toFixed(1)` for an integer `n` with |n| < 10 * 2^49: the whole part, a point, and
   * exactly one fractional digit, with a leading minus for negative input.
   */
  function FormatTenths(n: int): (s: string)
    ensures |s| >= 3 && s[|s| - 2] == '.' && IsDigit(s[|s| - 1])
    ensures n >= 0 ==> IsDigit(s[0])
    ensures n < 0 ==> s[0] == '-'
  {
    if n < 0 then "-" + FormatUnsignedTenths(-n) else FormatUnsignedTenths(n)
  }

  function FormatUnsignedTenths(n: nat): (s: string)
    ensures |s| >= 3 && s[|s| - 2] == '.' && IsDigit(s[|s| - 1]) && IsDigit(s[0])
  {
    NatToString(n / 10) + "." + [DigitChar(n % 10)]
  }

  /** Reads back an unsigned `whole.digit` string as a count of tenths. */
  function ParseUnsignedTenths(s: string): Option<int> {
    if |s| < 3 || s[|s| - 2] != '.' || !IsDigit(s[|s| - 1]) then None
    else
      match ParseNat(s[..|s| - 2])
      case None => None
      case Some(whole) => Some(whole * 10 + DigitValue(s[|s| - 1]))
  }

  function ParseTenths(s: string): Option<int> {
    if |s| > 0 && s[0] == '-' then
      match ParseUnsignedTenths(s[1..])
      case None => None
      case Some(n) => Some(0 - n)
    else ParseUnsignedTenths(s)
  }

  lemma UnsignedTenthsRoundTrip(n: nat)
    ensures ParseUnsignedTenths(FormatUnsignedTenths(n)) == Some(n)
  {
    var s := FormatUnsignedTenths(n);
    var whole := NatToString(n / 10);
    assert s[..|s| - 2] == whole;
    NatRoundTrip(n / 10);
  }

  lemma SignedTenthsRoundTrip(m: nat)
    ensures ParseTenths("-" + FormatUnsignedTenths(m)) == Some(0 - m)
  {
    var u := FormatUnsignedTenths(m);
    assert ("-" + u)[1..] == u;
    UnsignedTenthsRoundTrip(m);
  }

  /** The formatted tenths read back to the same integer, so no two integers share a rendering. */
  lemma TenthsRoundTrip(n: int)
    ensures ParseTenths(FormatTenths(n)) == Some(n)
  {
    if n < 0 {
      SignedTenthsRoundTrip(-n);
    } else {
      UnsignedTenthsRoundTrip(n);
      assert !(FormatUnsignedTenths(n)[0] == '-');
    }
  }

  function FormatWeight(weight: int): (s: string)
    ensures |s| >= 3 && s[|s| - 3..] == " kg"
  {
    FormatTenths(weight) + " kg"
  }

  function FormatHeight(height: int): (s: string)
    ensures |s| >= 2 && s[|s| - 2..] == " m"
  {
    FormatTenths(height) + " m"
  }

  /** Two weights render alike exactly when they are equal; likewise heights. */
  lemma FormatMeasuresInjective(a: int, b: int)
    ensures FormatWeight(a) == FormatWeight(b) <==> a == b
    ensures FormatHeight(a) == FormatHeight(b) <==> a == b
  {
    if FormatWeight(a) == FormatWeight(b) {
      assert FormatWeight(a)[..|FormatWeight(a)| - 3] == FormatTenths(a);
      assert FormatWeight(b)[..|FormatWeight(b)| - 3] == FormatTenths(b);
      TenthsRoundTrip(a);
      TenthsRoundTrip(b);
    }
    if FormatHeight(a) == FormatHeight(b) {
      assert FormatHeight(a)[..|FormatHeight(a)| - 2] == FormatTenths(a);
      assert FormatHeight(b)[..|FormatHeight(b)| - 2] == FormatTenths(b);
      TenthsRoundTrip(a);
      TenthsRoundTrip(b);
    }
  }

  lemma FormatMeasuresExample()
    ensures FormatWeight(69) == "6.9 kg"
    ensures FormatHeight(7) == "0.7 m"
    ensures FormatWeight(-5) == "-0.5 kg"
  {
    assert NatToString(6) == "6";
    assert NatToString(0) == "0";
  }

  /** The API item, with the one sprite the display uses. */
  datatype Pokemon = Pokemon(id: int, name: string, height: int, weight: int, baseExperience: int, frontDefault: string)

  datatype PokemonDTO = PokemonDTO(id: int, name: string, height: string, weight: string, baseExperience: int, image: string)

  function ToDto(p: Pokemon): (d: PokemonDTO)
    ensures d.id == p.id && d.baseExperience == p.baseExperience && d.image == p.frontDefault
    ensures d.name == FormatPokemonName(p.name)
    ensures d.weight == FormatWeight(p.weight) && d.height == FormatHeight(p.height)
  {
    PokemonDTO(p.id, FormatPokemonName(p.name), FormatHeight(p.height), FormatWeight(p.weight),
               p.baseExperience, p.frontDefault)
  }

  /** The DTO keeps everything but the letter case of the name's first character. */
  lemma DtoKeepsInformation(p: Pokemon, q: Pokemon)
    requires p.name == q.name
    ensures ToDto(p) == ToDto(q) <==> p == q
  {
    FormatMeasuresInjective(p.weight, q.weight);
    FormatMeasuresInjective(p.height, q.height);
  }
}
