/**
 * The X10 protocol code tables the API module builds once in its `init`:
 * house letter to code, unit number to code, function name to code, the
 * house and unit ranges of the logged validity check, and the device types
 * the module accepts.
 */
module CodeTables {
  import opened Wrappers

  /** One table entry: the 'string' form (one character) and the 'hex' value. */
  datatype Code = Code(x10string: char, x10hex: int)

  const HouseToX10: map<char, Code> := map[
    'A' := Code('6', 0x06),
    'B' := Code('E', 0x0E),
    'C' := Code('2', 0x02),
    'D' := Code('A', 0x0A),
    'E' := Code('1', 0x01),
    'F' := Code('9', 0x09),
    'G' := Code('5', 0x05),
    'H' := Code('D', 0x0D),
    'I' := Code('7', 0x07),
    'J' := Code('F', 0x0F),
    'K' := Code('3', 0x03),
    'L' := Code('B', 0x0B),
    'M' := Code('0', 0x00),
    'N' := Code('N', 0x08),
    'O' := Code('4', 0x04),
    'P' := Code('C', 0x0C)]

  const DeviceToX10: map<int, Code> := map[
    1 := Code('6', 0x06),
    2 := Code('E', 0x0E),
    3 := Code('2', 0x02),
    4 := Code('A', 0x0A),
    5 := Code('1', 0x01),
    6 := Code('9', 0x09),
    7 := Code('5', 0x05),
    8 := Code('D', 0x0D),
    9 := Code('7', 0x07),
    10 := Code('F', 0x0F),
    11 := Code('3', 0x03),
    12 := Code('B', 0x0B),
    13 := Code('0', 0x00),
    14 := Code('N', 0x08),
    15 := Code('4', 0x04),
    16 := Code('C', 0x0C)]

  /** Function name to code; `None` marks the two functions without a code. */
  const FunctionToX10: map<string, Option<int>> := map[
    "HOUSE_OFF" := Some(0x00),
    "HOUSE_ON" := Some(0x01),
    "ON" := Some(0x02),
    "OFF" := Some(0x03),
    "DIM" := Some(0x04),
    "BRIGHTEN" := Some(0x05),
    "MICRO_DIM" := None,
    "MICRO_BRIGHTEN" := None,
    "HOUSE_LIGHTS_OFF" := Some(0x06),
    "EXTENDED_CODE" := Some(0x07),
    "HAIL_REQUEST" := Some(0x08),
    "HAIL_ACK" := Some(0x09),
    "PRESET_DIM1" := Some(0x0A),
    "PRESET_DIM2" := Some(0x0B),
    "EXTENDED_DATA" := Some(0x0C),
    "STATUS_ON" := Some(0x0D),
    "STATUS_OFF" := Some(0x0E),
    "STATUS_REQUEST" := Some(0x0F)]

  /** `_housecodes`: the house letters of the logged validity check. */
  const HouseCodes: seq<char> := "ABCDEFGHIJKLMNOP"

  /** `_unitcodes = range(1, 17)`. */
  const UnitCodes: seq<int> := [1, 2, 3, 4, 5, 6, 7, 8, 9, 10, 11, 12, 13, 14, 15, 16]

  /** `deviceTypes`: the device type ids whose commands the module handles. */
  const DeviceTypes: map<int, string> := map[1 := "x10Appliance", 2 := "x10Lamp"]

  /** The upper-case hexadecimal digit of a value below 16. */
  function HexDigit(v: int): char
    requires 0 <= v < 16
  {
    "0123456789ABCDEF"[v]
  }

  /** The house-table lookup `houseToX10[house]`; `None` where Python raises KeyError. */
  function HouseCode(house: char): (r: Option<Code>)
    ensures r.Some? <==> 'A' <= house <= 'P'
    ensures r.Some? ==> 0 <= r.value.x10hex < 16
    ensures r.Some? ==> (r.value.x10string == HexDigit(r.value.x10hex) <==> house != 'N')
  {
    if house in HouseToX10 then Some(HouseToX10[house]) else None
  }

  /**
   * The unit-table lookup `deviceToX10[number]`: unit k carries the same
   * code as the k-th house letter.
   */
  function UnitCode(unit: int): (r: Option<Code>)
    ensures r.Some? <==> 1 <= unit <= 16
    ensures r.Some? ==> r.value == HouseToX10[HouseCodes[unit - 1]]
  {
    if unit in DeviceToX10 then Some(DeviceToX10[unit]) else None
  }

  /**
   * The function-table lookup `functionToX10[name]`: `None` where Python
   * raises KeyError, `Some(None)` for the two functions without a code.
   */
  function FunctionCode(name: string): (r: Option<Option<int>>)
    ensures r == Some(None) <==> name == "MICRO_DIM" || name == "MICRO_BRIGHTEN"
    ensures r.Some? && r.value.Some? ==> 0 <= r.value.value < 16
    ensures r.Some? ==> forall i | 0 <= i < |name| :: 'A' <= name[i] <= 'Z' || '0' <= name[i] <= '9' || name[i] == '_'
  {
    if name in FunctionToX10 then Some(FunctionToX10[name]) else None
  }

  /** The house letter each code 0x00..0x0F stands for: the inverse of the house table. */
  ghost const HouseOfCode: seq<char> := "MECKOGAINFDLPHBJ"

  /** The function name each code 0x00..0x0F stands for: the inverse of the function table. */
  ghost const FunctionOfCode: seq<string> := [
    "HOUSE_OFF", "HOUSE_ON", "ON", "OFF", "DIM", "BRIGHTEN", "HOUSE_LIGHTS_OFF", "EXTENDED_CODE",
    "HAIL_REQUEST", "HAIL_ACK", "PRESET_DIM1", "PRESET_DIM2", "EXTENDED_DATA", "STATUS_ON", "STATUS_OFF",
    "STATUS_REQUEST"]

  /**
   * The 16 house codes are a permutation of 0x00..0x0F: decoding a house's
   * code gives the house back, and every code decodes to a house.
   */
  lemma HouseCodesArePermutation()
    ensures forall h | h in HouseToX10 :: 0 <= HouseToX10[h].x10hex < 16 && HouseOfCode[HouseToX10[h].x10hex] == h
    ensures forall v | 0 <= v < 16 :: HouseOfCode[v] in HouseToX10 && HouseToX10[HouseOfCode[v]].x10hex == v
    ensures forall a, b | a in HouseToX10 && b in HouseToX10 && a != b :: HouseToX10[a].x10hex != HouseToX10[b].x10hex
  {
    forall v | 0 <= v < 16
      ensures HouseOfCode[v] in HouseToX10 && HouseToX10[HouseOfCode[v]].x10hex == v
    {
      assert v in {0, 1, 2, 3, 4, 5, 6, 7, 8, 9, 10, 11, 12, 13, 14, 15};
    }
  }

  /** `_housecodes` lists the letters A..P in order. */
  lemma HouseCodesInOrder()
    ensures |HouseCodes| == 16
    ensures forall k | 0 <= k < 16 :: HouseCodes[k] as int == 'A' as int + k
  {
    forall k | 0 <= k < 16
      ensures HouseCodes[k] as int == 'A' as int + k
    {
      assert k in {0, 1, 2, 3, 4, 5, 6, 7, 8, 9, 10, 11, 12, 13, 14, 15};
    }
  }

  /** Unit k of the unit table carries the code of the k-th house letter. */
  lemma UnitCodesFollowHouses()
    ensures forall u | u in DeviceToX10 :: 1 <= u <= 16 && DeviceToX10[u] == HouseToX10[HouseCodes[u - 1]]
  {
    forall u | u in DeviceToX10
      ensures 1 <= u <= 16 && DeviceToX10[u] == HouseToX10[HouseCodes[u - 1]]
    {
      assert UnitCode(u).Some?;
    }
  }

  /**
   * The 16 unit codes are a permutation of 0x00..0x0F: every code decodes
   * to the unit whose number is the position of its house letter ...
   */
  lemma UnitCodesCoverAll()
    ensures forall u | u in DeviceToX10 :: 0 <= DeviceToX10[u].x10hex < 16
    ensures forall v | 0 <= v < 16 :: HouseOfCode[v] as int - 'A' as int + 1 in DeviceToX10 &&
                                     DeviceToX10[HouseOfCode[v] as int - 'A' as int + 1].x10hex == v
  {
    HouseCodesArePermutation();
    HouseCodesInOrder();
    UnitCodesFollowHouses();
    forall v | 0 <= v < 16
      ensures HouseOfCode[v] as int - 'A' as int + 1 in DeviceToX10 &&
              DeviceToX10[HouseOfCode[v] as int - 'A' as int + 1].x10hex == v
    {
      var h := HouseOfCode[v];
      assert 'A' <= h <= 'P' by {
        assert HouseCode(h).Some?;
      }
      var u := h as int - 'A' as int + 1;
      assert HouseCodes[u - 1] == h;
      assert UnitCode(u).Some?;
    }
  }

  /** ... and no two units share a code. */
  lemma UnitCodesDistinct(a: int, b: int)
    requires a in DeviceToX10 && b in DeviceToX10 && a != b
    ensures DeviceToX10[a].x10hex != DeviceToX10[b].x10hex
  {
    UnitCodesFollowHouses();
    HouseCodesInOrder();
    HouseCodesArePermutation();
    var ha, hb := HouseCodes[a - 1], HouseCodes[b - 1];
    assert ha as int != hb as int;
    assert ha in HouseToX10 && hb in HouseToX10;
  }

  /**
   * The 16 function names that have a code carry pairwise-distinct codes
   * covering 0x00..0x0F; the two others carry none.
   */
  lemma FunctionCodesArePermutation()
    ensures forall f | f in FunctionToX10 && FunctionToX10[f].Some? ::
      0 <= FunctionToX10[f].value < 16 && FunctionOfCode[FunctionToX10[f].value] == f
    ensures forall v | 0 <= v < 16 :: FunctionOfCode[v] in FunctionToX10 && FunctionToX10[FunctionOfCode[v]] == Some(v)
  {
    FunctionCodesDecode();
    FunctionCodesCover(0, 8);
    FunctionCodesCover(8, 16);
  }

  /** Each code in [lo, hi) encodes the function the inverse table names for it (checked eight codes at a time). */
  lemma FunctionCodesCover(lo: int, hi: int)
    requires (lo, hi) == (0, 8) || (lo, hi) == (8, 16)
    ensures forall v | lo <= v < hi :: FunctionOfCode[v] in FunctionToX10 && FunctionToX10[FunctionOfCode[v]] == Some(v)
  {
    forall v | lo <= v < hi
      ensures FunctionOfCode[v] in FunctionToX10 && FunctionToX10[FunctionOfCode[v]] == Some(v)
    {
      if lo == 0 {
        assert v in {0, 1, 2, 3, 4, 5, 6, 7};
      } else {
        assert v in {8, 9, 10, 11, 12, 13, 14, 15};
      }
    }
  }

  /** Decoding the code of a function with a code gives the function back. */
  lemma FunctionCodesDecode()
    ensures forall f | f in FunctionToX10 && FunctionToX10[f].Some? ::
      0 <= FunctionToX10[f].value < 16 && FunctionOfCode[FunctionToX10[f].value] == f
  {
  }

  /**
   * The validity check that only logs (house in `_housecodes`, unit in
   * `_unitcodes`) accepts exactly the addresses both table lookups accept.
   */
  lemma LoggedCheckMatchesLookups(house: char, unit: int)
    ensures (house in HouseCodes && unit in UnitCodes) <==> (house in HouseToX10 && unit in DeviceToX10)
  {
  }

  /** The device types handled are exactly the ids 1 and 2. */
  lemma DeviceTypesAreOneAndTwo(typeId: int)
    ensures typeId in DeviceTypes <==> typeId == 1 || typeId == 2
  {
  }
}
