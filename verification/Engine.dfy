/** The execution engine's view of a batch: how many calls it may have, and the native value it needs. */
module Engine {
  import opened Wrappers
  import opened Arithmetic
  import opened Decimal

  const MAX_BATCH: nat := 16

  predicate BatchSizeOk(calls: nat) {
    1 <= calls <= MAX_BATCH
  }

  /** A call value as text; blank counts as zero. */
  function ParseNativeValue(raw: string): Option<U256> {
    var trimmed := Trim(raw);
    if trimmed == "" || trimmed == "0" then Some(0) else FromDecStr(trimmed)
  }

  /** The value is the number its trimmed digits denote, blank denoting zero; anything else is refused. */
  lemma NativeValueIs(raw: string, v: nat)
    ensures (v < WORD && ParseNativeValue(raw) == Some(v)) <==> AllDigits(Trim(raw)) && Number(Trim(raw)) == v && v < WORD
  {
    assert Number("0") == 0 by {
      assert "0"[..0] == "";
    }
  }

  /** A batch has between one and sixteen calls. */
  lemma BatchSizeIs(calls: nat)
    ensures BatchSizeOk(calls) <==> 1 <= calls <= 16
  {
  }

  predicate AllParse(values: seq<string>) {
    forall i :: 0 <= i < |values| ==> ParseNativeValue(values[i]).Some?
  }

  function SumValues(values: seq<string>): nat
    requires AllParse(values)
  {
    if values == [] then 0 else SumValues(values[..|values| - 1]) + ParseNativeValue(values[|values| - 1]).value
  }

  lemma {:induction false} SumValuesPrefix(values: seq<string>, n: nat)
    requires AllParse(values) && n <= |values|
    ensures SumValues(values[..n]) <= SumValues(values)
  {
    if n < |values| {
      assert values[..|values| - 1][..n] == values[..n];
      SumValuesPrefix(values[..|values| - 1], n);
    } else {
      assert values[..n] == values;
    }
  }

  /** The checked running sum succeeds exactly when every value parses and the whole sum is a word;
      an overflow half way cannot be made good later. */
  method BatchNativeValueRequired(values: seq<string>) returns (required: Option<U256>)
    ensures required.Some? <==> AllParse(values) && SumValues(values) < WORD
    ensures required.Some? ==> required.value as int == SumValues(values)
  {
    var sum: U256 := 0;
    for i := 0 to |values|
      invariant AllParse(values[..i])
      invariant sum == SumValues(values[..i])
    {
      assert values[..i + 1][..i] == values[..i];
      var value := ParseNativeValue(values[i]);
      if value.None? {
        return None;
      }
      assert AllParse(values[..i + 1]);
      if sum + value.value >= WORD {
        if AllParse(values) {
          SumValuesPrefix(values, i + 1);
        }
        return None;
      }
      sum := sum + value.value;
    }
    assert values[..|values|] == values;
    return Some(sum);
  }
}
