/** `$.popunder.helper.rand`: names for the throttle cookie and for popup windows. */
module Names {
  import opened Js
  import Decimal
  import opened Host

  const DefaultPrefix: string := "pu_"

  /** `p = (name) ? name : 'pu_'`. */
  function PrefixValue(name: Value): Value {
    if Truthy(name) then name else Str(DefaultPrefix)
  }

  /** The prefix written as text, which is what `p + ''` gives. */
  function Prefix(name: Value): string {
    ToString(PrefixValue(name))
  }

  /** `Math.floor(89999999 * Math.random() + 10000000)` for the draw `random`. */
  function RandomSuffix(random: nat): (n: nat)
    requires random < RandomScale
    ensures 10000000 <= n <= 99999998
  {
    SuffixBound(random);
    89999999 * random / RandomScale + 10000000
  }

  lemma SuffixBound(random: nat)
    requires random < RandomScale
    ensures 89999999 * random / RandomScale <= 89999998
  {
    assert 89999999 * random <= 89999999 * (RandomScale - 1);
  }

  /** `rand(name, rand)`: `p + ''` when `rand === false`, otherwise `p` plus the random
      number. That `+` joins text only when `p` is a string; a truthy number or `true` is
      added to the random number arithmetically. */
  function Rand(name: Value, rand: Value, random: nat): string
    requires random < RandomScale
  {
    if rand == Bool(false) then Prefix(name) else PlusNumber(PrefixValue(name), RandomSuffix(random))
  }

  /** Without randomness the name is the caller's name itself, or "pu_" for a falsy one,
      and the draw plays no part. */
  lemma RandFixed(name: Value, random: nat, other: nat)
    requires random < RandomScale && other < RandomScale
    ensures Rand(name, Bool(false), random) == Rand(name, Bool(false), other)
    ensures forall s :: name == Str(s) && s != "" ==> Rand(name, Bool(false), random) == s
    ensures !Truthy(name) ==> Rand(name, Bool(false), random) == "pu_"
  {
  }

  /** With any other second argument and a string or falsy name, the name is the prefix
      followed by exactly eight decimal digits, which denote a number in
      [10000000, 99999998]. */
  lemma {:induction false} RandSuffixed(name: Value, rand: Value, random: nat)
    requires random < RandomScale && rand != Bool(false)
    requires name.Str? || !Truthy(name)
    ensures var s, p := Rand(name, rand, random), Prefix(name);
      && |s| == |p| + 8
      && s[..|p|] == p
      && Decimal.AllDigits(s[|p|..])
      && 10000000 <= Decimal.Parse(s[|p|..]) <= 99999998
  {
    var n := RandomSuffix(random);
    var d := Decimal.FromNat(n);
    assert Decimal.Pow10(7) == 10000000 && Decimal.Pow10(8) == 100000000;
    Decimal.FromNatLength(n, 7);
    Decimal.ParseFromNat(n);
    var s, p := Rand(name, rand, random), Prefix(name);
    assert s == p + d;
    assert s[|p|..] == d;
  }

  /** With a truthy number or `true` as the name, `p + number` adds: the name is the
      decimal text of the sum (`true` counting as 1), with no prefix left in it. For a
      positive number that text is canonical, denotes the sum, and may have nine digits. */
  lemma {:induction false} RandNumeric(name: Value, rand: Value, random: nat)
    requires random < RandomScale && rand != Bool(false)
    requires Truthy(name) && !name.Str?
    ensures name.Num? || name == Bool(true)
    ensures var s, m := Rand(name, rand, random), (if name.Num? then name.n else 1);
      && (m + RandomSuffix(random) >= 0 ==>
            Decimal.Canonical(s) && Decimal.Parse(s) == m + RandomSuffix(random))
      && (m + RandomSuffix(random) < 0 ==> s[0] == '-')
  {
    var m := if name.Num? then name.n else 1;
    var total := m + RandomSuffix(random);
    if total >= 0 {
      Decimal.ParseFromNat(total);
    }
  }
}
