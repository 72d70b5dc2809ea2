/** `Quorum`: a replica count for reads and writes, given as a non-negative
    number or as one of the four well-known symbolic values `one`, `quorum`,
    `all` and `default`. The symbolic values are stored as the negative
    numbers -2 to -5, which read as `uint.MaxValue - 1` to `uint.MaxValue - 4`
    when the same 32 bits are taken as unsigned, the form the wire protocol
    uses. */
module Quorums {
  import opened Clr

  const WellKnownOne: Int32 := -2
  const WellKnownQuorum: Int32 := -3
  const WellKnownAll: Int32 := -4
  const WellKnownDefault: Int32 := -5

  /** The numbers a quorum may hold. */
  predicate IsQuorumValue(i: int)
  {
    i >= 0 || WellKnownDefault <= i <= WellKnownOne
  }

  type QuorumValue = i: Int32 | IsQuorumValue(i)

  datatype Quorum = Quorum(value: QuorumValue)

  /** `new Quorum(int)`: a valid number, or `ArgumentOutOfRangeException`. */
  function FromInt(i: Int32): (r: Outcome<Quorum>)
    ensures r.Returns? <==> i >= 0 || -5 <= i <= -2
    ensures r.Returns? ==> r.value.value == i
    ensures r.Throws? ==> r.error == ArgumentOutOfRange
  {
    if IsQuorumValue(i) then Returns(Quorum(i)) else Throws(ArgumentOutOfRange)
  }

  /** `new Quorum(uint)` and the explicit cast `(Quorum)uint`: the unsigned
      number read back as a signed one. */
  function FromUInt(u: UInt32): (r: Outcome<Quorum>)
    ensures r.Returns? <==> u < TwoTo31 || UIntMaxValue - 4 <= u <= UIntMaxValue - 1
    ensures r.Returns? ==> AsUInt32(r.value.value) == u
    ensures r.Throws? ==> r.error == ArgumentOutOfRange
  {
    FromInt(AsInt32(u))
  }

  /** `ToLowerInvariant` on the ASCII letters. */
  function LowerChar(c: char): char
  {
    if 'A' <= c <= 'Z' then (c as int - 'A' as int + 'a' as int) as char else c
  }

  function Lower(s: string): (r: string)
    ensures |r| == |s| && forall i :: 0 <= i < |s| ==> r[i] == LowerChar(s[i])
    ensures forall i :: 0 <= i < |r| ==> !('A' <= r[i] <= 'Z')
  {
    seq(|s|, i requires 0 <= i < |s| => LowerChar(s[i]))
  }

  /** The names of the well-known values, in their string form. */
  const Names: set<string> := {"one", "quorum", "all", "default"}

  /** `new Quorum(string)`: an empty string is `ArgumentNullException`; a
      name of a well-known value in any letter case is that value; anything
      else is `ArgumentOutOfRangeException`. */
  function FromString(s: string): (r: Outcome<Quorum>)
    ensures r.Returns? <==> Lower(s) in Names
    ensures Lower(s) == "one" ==> r == Returns(Quorum(WellKnownOne))
    ensures Lower(s) == "quorum" ==> r == Returns(Quorum(WellKnownQuorum))
    ensures Lower(s) == "all" ==> r == Returns(Quorum(WellKnownAll))
    ensures Lower(s) == "default" ==> r == Returns(Quorum(WellKnownDefault))
    ensures r.Throws? ==> (r.error == ArgumentNull <==> s == "")
  {
    if s == "" then Throws(ArgumentNull)
    else
      var name := Lower(s);
      if name == "one" then Returns(Quorum(WellKnownOne))
      else if name == "quorum" then Returns(Quorum(WellKnownQuorum))
      else if name == "all" then Returns(Quorum(WellKnownAll))
      else if name == "default" then Returns(Quorum(WellKnownDefault))
      else Throws(ArgumentOutOfRange)
  }

  /** `(int)quorum`. */
  function ToInt(q: Quorum): (i: Int32)
    ensures FromInt(i) == Returns(q)
  {
    q.value
  }

  /** `(uint)quorum`: the same 32 bits, unsigned. */
  function ToUInt(q: Quorum): (u: UInt32)
    ensures AsInt32(u) == q.value
    ensures q.value < 0 ==> u == UIntMaxValue + 1 + q.value
  {
    AsUInt32(q.value)
  }

  /** `ToString()` and `(string)quorum`: the name of a well-known value, the
      decimal digits of any other. */
  function ToString(q: Quorum): (s: string)
    ensures q.value < 0 ==> s in Names
    ensures q.value >= 0 ==> s == Decimal(q.value)
  {
    if q.value == WellKnownOne then "one"
    else if q.value == WellKnownQuorum then "quorum"
    else if q.value == WellKnownAll then "all"
    else if q.value == WellKnownDefault then "default"
    else Decimal(q.value)
  }

  // ---------------------------------------------------------------- properties

  /** Parsing ignores letter case. */
  lemma ParsingIgnoresCase(s: string, t: string)
    requires Lower(s) == Lower(t)
    ensures FromString(s) == FromString(t)
  {
  }

  /** The string form of a parsed quorum is the lower-cased input. */
  lemma StringFormIsLowerCase(s: string)
    requires FromString(s).Returns?
    ensures ToString(FromString(s).value) == Lower(s)
  {
  }

  /** Building a quorum from the integer of a parsed one gives the same
      quorum, and its unsigned view is `uint.MaxValue` minus 1 to 4. */
  lemma FromIntAgreesWithName(s: string)
    requires FromString(s).Returns?
    ensures FromInt(ToInt(FromString(s).value)) == FromString(s)
    ensures UIntMaxValue - 4 <= ToUInt(FromString(s).value) <= UIntMaxValue - 1
  {
  }

  /** The unsigned well-known values `uint.MaxValue - k` are `one`,
      `quorum`, `all` and `default` for k = 1 to 4. */
  lemma UnsignedWellKnownValues()
    ensures FromUInt(UIntMaxValue - 1) == Returns(Quorum(WellKnownOne))
    ensures FromUInt(UIntMaxValue - 2) == Returns(Quorum(WellKnownQuorum))
    ensures FromUInt(UIntMaxValue - 3) == Returns(Quorum(WellKnownAll))
    ensures FromUInt(UIntMaxValue - 4) == Returns(Quorum(WellKnownDefault))
    ensures FromUInt(UIntMaxValue) == Throws(ArgumentOutOfRange)
  {
  }

  /** The fixed cases the unit tests assert. */
  lemma TestCases()
    ensures FromString("") == Throws(ArgumentNull)
    ensures FromString("frazzle") == Throws(ArgumentOutOfRange)
    ensures FromInt(0).Returns?
    ensures FromInt(-1) == Throws(ArgumentOutOfRange)
    ensures FromInt(-32) == Throws(ArgumentOutOfRange) && FromInt(-1024) == Throws(ArgumentOutOfRange)
    ensures forall i: Int32 :: -5 <= i <= -2 ==> FromInt(i).Returns? && ToInt(FromInt(i).value) == i
    ensures FromString("onE") == FromString("ONE") == Returns(Quorum(WellKnownOne))
    ensures FromString("quOrUm") == Returns(Quorum(WellKnownQuorum))
    ensures FromString("alL") == Returns(Quorum(WellKnownAll))
    ensures FromString("deFaulT") == Returns(Quorum(WellKnownDefault))
  {
    assert Lower("frazzle") == "frazzle";
    assert Lower("onE") == "one" && Lower("ONE") == "one";
    assert Lower("quOrUm") == "quorum";
    assert Lower("alL") == "all";
    assert Lower("deFaulT") == "default";
  }

  /** Different quorums have different string forms. */
  lemma ToStringInjective(p: Quorum, q: Quorum)
    ensures ToString(p) == ToString(q) ==> p == q
  {
    if ToString(p) == ToString(q) {
      if p.value >= 0 && q.value >= 0 {
        DecimalInjective(p.value, q.value);
      } else if p.value >= 0 {
        NamesAreNotDigits(ToString(p));
      } else if q.value >= 0 {
        NamesAreNotDigits(ToString(q));
      }
    }
  }

  lemma NamesAreNotDigits(s: string)
    requires s in Names
    ensures !IsDigit(s[0])
  {
  }

  /** The int, uint and string views all lead back to the quorum. */
  lemma RoundTrips(q: Quorum)
    ensures FromInt(ToInt(q)) == Returns(q)
    ensures FromUInt(ToUInt(q)) == Returns(q)
    ensures q.value < 0 ==> FromString(ToString(q)) == Returns(q)
  {
    CastsAreInverse(q.value, ToUInt(q));
    if q.value < 0 {
      assert Lower("one") == "one" && Lower("quorum") == "quorum";
      assert Lower("all") == "all" && Lower("default") == "default";
    }
  }
}
