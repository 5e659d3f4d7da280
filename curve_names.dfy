/**
 * The names of the wind efficiency curves: the seven curves the package
 * ships and the prefix of a name, which selects the file a curve is read
 * from.
 */
module CurveNaming {
  /** The seven curves the package ships, in the order `'all'` lists them. */
  const PossibleCurveNames: seq<string> :=
    ["dena_mean", "knorr_mean", "dena_extreme1", "dena_extreme2",
     "knorr_extreme1", "knorr_extreme2", "knorr_extreme3"]

  /** `s.split('_')[0]`: the part of `s` before its first underscore. */
  function Prefix(s: string): (p: string)
    ensures p <= s && '_' !in p
    ensures |p| < |s| ==> s[|p|] == '_'
  {
    if |s| == 0 || s[0] == '_' then "" else [s[0]] + Prefix(s[1..])
  }

  /** A name without an underscore is its own prefix. */
  lemma {:induction false} PrefixWhole(s: string)
    requires '_' !in s
    ensures Prefix(s) == s
    decreases |s|
  {
    if |s| > 0 {
      assert '_' !in s[1..];
      PrefixWhole(s[1..]);
    }
  }

  /** The prefix ends at the first underscore. */
  lemma {:induction false} PrefixAt(s: string, k: nat)
    requires k < |s| && s[k] == '_' && '_' !in s[..k]
    ensures Prefix(s) == s[..k]
    decreases k
  {
    if k > 0 {
      assert s[0] != '_';
      assert s[1..][..k - 1] == s[1..k];
      assert '_' !in s[1..][..k - 1];
      PrefixAt(s[1..], k - 1);
      assert s[..k] == [s[0]] + s[1..k];
    }
  }

  /** "misspelled" has no underscore. */
  lemma MisspelledWhole()
    ensures Prefix("misspelled") == "misspelled"
  {
    PrefixWhole("misspelled");
  }

  /** "dena_misspelled" is cut at its fifth character. */
  lemma MisspelledDena()
    ensures Prefix("dena_misspelled") == "dena"
  {
    var s := "dena_misspelled";
    assert s[4] == '_';
    assert s[..4] == "dena";
    PrefixAt(s, 4);
  }

  /** The seven shipped names are pairwise different. */
  lemma PossibleNamesDistinct()
    ensures |PossibleCurveNames| == 7
    ensures forall i, j :: 0 <= i < j < |PossibleCurveNames| ==> PossibleCurveNames[i] != PossibleCurveNames[j]
  {
  }
}
