/**
 * The NPI rules the two validators share: src/pricing.rs and src/procedures.rs each spell out
 * the same per-NPI check and the same messages; they are stated once here.
 */
module Npis {
  import opened Wrappers
  import opened Strings

  /** A National Provider Identifier as the validators accept it: exactly ten ASCII digits.
      (Rust measures the length in bytes; on an all-ASCII string bytes and characters agree.) */
  predicate IsValidNpi(npi: string) {
    |npi| == 10 && AllAsciiDigits(npi)
  }

  /** The position of the first malformed NPI in list order, if there is one. */
  function FirstInvalidNpi(npis: seq<string>): (r: Option<nat>)
    ensures r.None? <==> forall j | 0 <= j < |npis| :: IsValidNpi(npis[j])
    ensures r.Some? ==> r.value < |npis| && !IsValidNpi(npis[r.value])
                        && forall j | 0 <= j < r.value :: IsValidNpi(npis[j])
  {
    if npis == [] then None
    else if !IsValidNpi(npis[0]) then Some(0)
    else match FirstInvalidNpi(npis[1..])
      case None => None
      case Some(k) => Some(k + 1)
  }

  /** Any malformed NPI preceded only by well-formed ones is the one `FirstInvalidNpi` finds. */
  lemma FirstInvalidNpiIsFirst(npis: seq<string>, k: nat)
    requires k < |npis| && !IsValidNpi(npis[k])
    requires forall j | 0 <= j < k :: IsValidNpi(npis[j])
    ensures FirstInvalidNpi(npis) == Some(k)
  {
  }

  const NO_NPIS_MESSAGE: string := "At least one NPI must be provided"
  const EMPTY_CONDITION_CODE_MESSAGE: string := "Condition code cannot be empty"

  /** The message naming the malformed NPI. */
  function InvalidNpiMessage(npi: string): (m: string)
    ensures m == "Invalid NPI format: '" + npi + "'. NPIs must be 10-digit numbers"
    ensures |m| > 20 && m[..20] == "Invalid NPI format: "
  {
    "Invalid NPI format: '" + npi + "'. NPIs must be 10-digit numbers"
  }

  /** The message determines the NPI it names. */
  lemma InvalidNpiMessageInjective(a: string, b: string)
    requires InvalidNpiMessage(a) == InvalidNpiMessage(b)
    ensures a == b
  {
    var prefix := "Invalid NPI format: '";
    var suffix := "'. NPIs must be 10-digit numbers";
    assert |a| == |b|;
    assert a == InvalidNpiMessage(a)[|prefix|..|prefix| + |a|];
    assert b == InvalidNpiMessage(b)[|prefix|..|prefix| + |b|];
  }
}
