/** Planet names of the older crate (`colony_protocol::planet_graph::name_generator`): a random
  * prefix and suffix form a base name; when that is taken, the first free of the base followed by
  * a Roman numeral from I to X. The random draw is a parameter of `Generate`. */
module ProtocolNameGenerator {
  import opened Wrappers

  datatype NameGeneratorError = AllVariantsExhausted

  /** The value of a Roman digit. */
  function DigitValue(c: char): int {
    if c == 'I' then 1 else if c == 'V' then 5 else if c == 'X' then 10 else 0
  }

  /** The number a Roman numeral stands for: digits add up, except that a digit written before a
    * larger one is subtracted from it. */
  function RomanValue(s: string): int
    decreases |s|
  {
    if s == [] then 0
    else if |s| >= 2 && DigitValue(s[0]) < DigitValue(s[1]) then DigitValue(s[1]) - DigitValue(s[0]) + RomanValue(s[2..])
    else DigitValue(s[0]) + RomanValue(s[1..])
  }

  /** `to_roman_numeral`, which panics outside 1 to 10. */
  function ToRomanNumeral(n: nat): (r: string)
    requires 1 <= n <= 10
    ensures 1 <= |r| <= 4
  {
    match n
    case 1 => "I"
    case 2 => "II"
    case 3 => "III"
    case 4 => "IV"
    case 5 => "V"
    case 6 => "VI"
    case 7 => "VII"
    case 8 => "VIII"
    case 9 => "IX"
    case 10 => "X"
  }

  /** The numeral is written with I, V and X only, and stands for `n`. */
  lemma RomanNumeralValue(n: nat)
    requires 1 <= n <= 10
    ensures forall i :: 0 <= i < |ToRomanNumeral(n)| ==> ToRomanNumeral(n)[i] in "IVX"
    ensures RomanValue(ToRomanNumeral(n)) == n
  {
    match n
    case 1 => assert RomanValue("I") == 1;
    case 2 => assert RomanValue("II") == 2;
    case 3 => assert RomanValue("III") == 3;
    case 4 => assert RomanValue("IV") == 4;
    case 5 => assert RomanValue("V") == 5;
    case 6 => assert RomanValue("VI") == 6;
    case 7 => assert RomanValue("VII") == 7;
    case 8 => assert RomanValue("VIII") == 8;
    case 9 => assert RomanValue("IX") == 9;
    case 10 => assert RomanValue("X") == 10;
  }

  /** `format!("{} {}", prefix, suffix)`. */
  function BaseName(prefix: string, suffix: string): string {
    prefix + " " + suffix
  }

  /** The base name followed by the numeral of a variant. */
  function Candidate(base: string, variant: nat): string
    requires 1 <= variant <= 10
  {
    base + " " + ToRomanNumeral(variant)
  }

  /** The first variant from `from` on whose name is free, if any. */
  function FirstFreeVariant(used: set<string>, base: string, from: nat): (r: Option<nat>)
    requires 1 <= from <= 11
    ensures r.Some? ==>
      from <= r.value <= 10 && Candidate(base, r.value) !in used
      && forall w :: from <= w < r.value ==> Candidate(base, w) in used
    ensures r.None? ==> forall w :: from <= w <= 10 ==> Candidate(base, w) in used
    decreases 11 - from
  {
    if from == 11 then None
    else if Candidate(base, from) !in used then Some(from)
    else FirstFreeVariant(used, base, from + 1)
  }

  /** The name `generate` hands out for a base name, given the names used so far: the base itself
    * when free, otherwise the first free variant from I to X, and an error when all eleven are
    * taken. */
  function Choose(used: set<string>, base: string): (r: Result<string, NameGeneratorError>)
    ensures base !in used ==> r == Ok(base)
    ensures r.Ok? ==> r.value !in used
    ensures r.Ok? && base in used ==>
      exists v :: 1 <= v <= 10 && r.value == Candidate(base, v) && forall w :: 1 <= w < v ==> Candidate(base, w) in used
    ensures r.Err? <==> base in used && forall v :: 1 <= v <= 10 ==> Candidate(base, v) in used
  {
    if base !in used then Ok(base)
    else match FirstFreeVariant(used, base, 1)
      case Some(v) => Ok(Candidate(base, v))
      case None => Err(AllVariantsExhausted)
  }

  /** The eleven names a base name can take are all different. */
  lemma CandidatesDistinct(base: string, a: nat, b: nat)
    requires 1 <= a <= 10 && 1 <= b <= 10
    ensures Candidate(base, a) != base
    ensures Candidate(base, a) == Candidate(base, b) ==> a == b
  {
    if Candidate(base, a) == Candidate(base, b) {
      var prefix := base + " ";
      assert Candidate(base, a) == prefix + ToRomanNumeral(a);
      assert Candidate(base, b) == prefix + ToRomanNumeral(b);
      assert ToRomanNumeral(a) == Candidate(base, a)[|prefix|..];
      assert ToRomanNumeral(b) == Candidate(base, b)[|prefix|..];
      RomanNumeralValue(a);
      RomanNumeralValue(b);
    }
  }

  /** A set that holds every element of a sequence without repeats has at least as many elements. */
  lemma {:induction false} DistinctElementsBound(xs: seq<string>, s: set<string>)
    requires forall i, j :: 0 <= i < j < |xs| ==> xs[i] != xs[j]
    requires forall i :: 0 <= i < |xs| ==> xs[i] in s
    ensures |s| >= |xs|
  {
    if xs != [] {
      var rest := xs[1..];
      assert forall i :: 0 <= i < |rest| ==> rest[i] == xs[i + 1];
      DistinctElementsBound(rest, s - {xs[0]});
    }
  }

  /** `generate` gives up only once at least eleven names are in use. */
  lemma ExhaustedNeedsElevenNames(used: set<string>, base: string)
    requires Choose(used, base).Err?
    ensures |used| >= 11
  {
    var names := seq(11, k requires 0 <= k < 11 => if k == 0 then base else Candidate(base, k));
    forall i, j | 0 <= i < j < |names|
      ensures names[i] != names[j]
    {
      CandidatesDistinct(base, j, if i == 0 then j else i);
    }
    DistinctElementsBound(names, used);
  }

  /** `NameGenerator`: the name parts and the names handed out so far. */
  class NameGenerator {
    const prefixes: seq<string>
    const suffixes: seq<string>
    var usedNames: set<string>

    /** `new`, with the name parts already loaded. */
    constructor (prefixes: seq<string>, suffixes: seq<string>)
      ensures this.prefixes == prefixes && this.suffixes == suffixes && usedNames == {}
    {
      this.prefixes := prefixes;
      this.suffixes := suffixes;
      usedNames := {};
    }

    /** `generate`, with the random prefix and suffix drawn by the caller; an empty list of parts
      * makes the draw panic, so the indices must be in range. The name handed out was free and
      * is recorded; nothing is recorded when all variants are taken. */
    method Generate(prefixIndex: nat, suffixIndex: nat) returns (r: Result<string, NameGeneratorError>)
      requires prefixIndex < |prefixes| && suffixIndex < |suffixes|
      modifies this
      ensures r == Choose(old(usedNames), BaseName(prefixes[prefixIndex], suffixes[suffixIndex]))
      ensures usedNames == if r.Ok? then old(usedNames) + {r.value} else old(usedNames)
    {
      var baseName := prefixes[prefixIndex] + " " + suffixes[suffixIndex];
      if baseName !in usedNames {
        usedNames := usedNames + {baseName};
        return Ok(baseName);
      }
      var variant := 1;
      while variant <= 10
        invariant 1 <= variant <= 11
        invariant usedNames == old(usedNames)
        invariant forall w :: 1 <= w < variant ==> Candidate(baseName, w) in usedNames
      {
        var candidate := baseName + " " + ToRomanNumeral(variant);
        if candidate !in usedNames {
          usedNames := usedNames + {candidate};
          return Ok(candidate);
        }
        variant := variant + 1;
      }
      return Err(AllVariantsExhausted);
    }
  }
}
