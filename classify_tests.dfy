/** Classification expectations of the repository's API tests
    (tests/test_api.py): known helicopter codes, and the missing type. */
module ClassifyTests {
  import opened Classify
  import opened TypeCodes

  /** The helicopter codes the tests use are written in normal form. */
  lemma TestCodeNormalised(code: string)
    requires code == "R44" || code == "S76" || code == "EC35" || code == "B407"
    ensures TypeCode(code) == code
  {
    NormalisedCode(code);
  }

  /** A listed helicopter code in normal form classifies as a helicopter. */
  lemma ListedHelicopter(code: string)
    requires code != "" && TypeCode(code) == code && code in HelicopterTypes
    ensures ClassifyAircraft(code) == Helicopter
  {
  }

  lemma ClassifyR44Example()
    ensures ClassifyAircraft("R44") == Helicopter
  {
    TestCodeNormalised("R44");
    assert "R44" in RobinsonHelicopterTypes;
    ListedHelicopter("R44");
  }

  lemma ClassifyS76Example()
    ensures ClassifyAircraft("S76") == Helicopter
  {
    TestCodeNormalised("S76");
    assert "S76" in SikorskyHelicopterTypes;
    ListedHelicopter("S76");
  }

  lemma ClassifyEC35Example()
    ensures ClassifyAircraft("EC35") == Helicopter
  {
    TestCodeNormalised("EC35");
    assert "EC35" in AirbusHelicopterTypes;
    ListedHelicopter("EC35");
  }

  lemma ClassifyB407Example()
    ensures ClassifyAircraft("B407") == Helicopter
  {
    TestCodeNormalised("B407");
    assert "B407" in BellHelicopterTypes;
    ListedHelicopter("B407");
  }

  /** A missing or empty type is "unknown". */
  lemma ClassifyMissingExample()
    ensures ClassifyAircraft("") == Unknown
  {
  }
}
