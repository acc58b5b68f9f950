/** Facts about the two fixed city tables: the API's `CITY_COORDS` and the form's `cities`. */
module CityTable {
  import opened Wire
  import opened Backend
  import opened AqiForm

  // Lower-cased keys are told apart by their length and first three characters. KeyCode packs those
  // into one integer; KeyCodes lists the codes of the keys of CITY_COORDS in table order.

  function KeyCode(k: string): int
    requires |k| >= 3
  {
    |k| * 1000000000 + (LowerChar(k[0]) as int) * 1000000 + (LowerChar(k[1]) as int) * 1000 + LowerChar(k[2]) as int
  }

  const KeyCodes: seq<int> := [
    5100101108, 11109097104, 11119101115, 10116097109, 9107097114, 9097104109,
    6097105122, 9097109097, 8097109114, 9098101110, 6098104111, 12098114097,
    10099104097, 7099104101, 10099111105, 9101114110, 8103117114, 8103117119,
    9104121100, 6106097105, 10106111114, 5107111099, 7107111108, 7108117099,
    6109117109, 5112097116, 8115104105, 7116097108, 18116104105, 13118105115
  ]

  lemma KeyCodeSeparates(a: string, b: string)
    requires |a| >= 3 && |b| >= 3 && Lower(a) == Lower(b)
    ensures KeyCode(a) == KeyCode(b)
  {
    assert Lower(a)[0] == Lower(b)[0] && Lower(a)[1] == Lower(b)[1] && Lower(a)[2] == Lower(b)[2];
  }

  lemma DistinctCodesSeparateKeys(table: seq<(string, Coords)>, codes: seq<int>)
    requires |codes| == |table|
    requires forall i :: 0 <= i < |table| ==> |table[i].0| >= 3 && KeyCode(table[i].0) == codes[i]
    requires forall i, j :: 0 <= i < j < |codes| ==> codes[i] != codes[j]
    ensures LowerDistinct(table)
  {
    forall i, j | 0 <= i < j < |table| ensures Lower(table[i].0) != Lower(table[j].0) {
      if Lower(table[i].0) == Lower(table[j].0) {
        KeyCodeSeparates(table[i].0, table[j].0);
      }
    }
  }

  lemma KeyCodes0To3()
    ensures forall i :: 0 <= i < 3 ==> |CityCoords[i].0| >= 3 && KeyCode(CityCoords[i].0) == KeyCodes[i]
  {
    assert KeyCode(CityCoords[0].0) == KeyCodes[0];
    assert KeyCode(CityCoords[1].0) == KeyCodes[1];
    assert KeyCode(CityCoords[2].0) == KeyCodes[2];
  }

  lemma KeyCodes3To6()
    ensures forall i :: 3 <= i < 6 ==> |CityCoords[i].0| >= 3 && KeyCode(CityCoords[i].0) == KeyCodes[i]
  {
    assert KeyCode(CityCoords[3].0) == KeyCodes[3];
    assert KeyCode(CityCoords[4].0) == KeyCodes[4];
    assert KeyCode(CityCoords[5].0) == KeyCodes[5];
  }

  lemma KeyCodes6To9()
    ensures forall i :: 6 <= i < 9 ==> |CityCoords[i].0| >= 3 && KeyCode(CityCoords[i].0) == KeyCodes[i]
  {
    assert KeyCode(CityCoords[6].0) == KeyCodes[6];
    assert KeyCode(CityCoords[7].0) == KeyCodes[7];
    assert KeyCode(CityCoords[8].0) == KeyCodes[8];
  }

  lemma KeyCodes9To12()
    ensures forall i :: 9 <= i < 12 ==> |CityCoords[i].0| >= 3 && KeyCode(CityCoords[i].0) == KeyCodes[i]
  {
    assert KeyCode(CityCoords[9].0) == KeyCodes[9];
    assert KeyCode(CityCoords[10].0) == KeyCodes[10];
    assert KeyCode(CityCoords[11].0) == KeyCodes[11];
  }

  lemma KeyCodes12To15()
    ensures forall i :: 12 <= i < 15 ==> |CityCoords[i].0| >= 3 && KeyCode(CityCoords[i].0) == KeyCodes[i]
  {
    assert KeyCode(CityCoords[12].0) == KeyCodes[12];
    assert KeyCode(CityCoords[13].0) == KeyCodes[13];
    assert KeyCode(CityCoords[14].0) == KeyCodes[14];
  }

  lemma KeyCodes15To18()
    ensures forall i :: 15 <= i < 18 ==> |CityCoords[i].0| >= 3 && KeyCode(CityCoords[i].0) == KeyCodes[i]
  {
    assert KeyCode(CityCoords[15].0) == KeyCodes[15];
    assert KeyCode(CityCoords[16].0) == KeyCodes[16];
    assert KeyCode(CityCoords[17].0) == KeyCodes[17];
  }

  lemma KeyCodes18To21()
    ensures forall i :: 18 <= i < 21 ==> |CityCoords[i].0| >= 3 && KeyCode(CityCoords[i].0) == KeyCodes[i]
  {
    assert KeyCode(CityCoords[18].0) == KeyCodes[18];
    assert KeyCode(CityCoords[19].0) == KeyCodes[19];
    assert KeyCode(CityCoords[20].0) == KeyCodes[20];
  }

  lemma KeyCodes21To24()
    ensures forall i :: 21 <= i < 24 ==> |CityCoords[i].0| >= 3 && KeyCode(CityCoords[i].0) == KeyCodes[i]
  {
    assert KeyCode(CityCoords[21].0) == KeyCodes[21];
    assert KeyCode(CityCoords[22].0) == KeyCodes[22];
    assert KeyCode(CityCoords[23].0) == KeyCodes[23];
  }

  lemma KeyCodes24To27()
    ensures forall i :: 24 <= i < 27 ==> |CityCoords[i].0| >= 3 && KeyCode(CityCoords[i].0) == KeyCodes[i]
  {
    assert KeyCode(CityCoords[24].0) == KeyCodes[24];
    assert KeyCode(CityCoords[25].0) == KeyCodes[25];
    assert KeyCode(CityCoords[26].0) == KeyCodes[26];
  }

  lemma KeyCodes27To30()
    ensures forall i :: 27 <= i < 30 ==> |CityCoords[i].0| >= 3 && KeyCode(CityCoords[i].0) == KeyCodes[i]
  {
    assert KeyCode(CityCoords[27].0) == KeyCodes[27];
    assert KeyCode(CityCoords[28].0) == KeyCodes[28];
    assert KeyCode(CityCoords[29].0) == KeyCodes[29];
  }

  lemma KeyCodesDistinct()
    ensures forall i, j :: 0 <= i < j < |KeyCodes| ==> KeyCodes[i] != KeyCodes[j]
  {
  }

  /** The keys of `CITY_COORDS` are pairwise distinct even ignoring case, so the case-insensitive search
      has at most one candidate and its result does not depend on the order of the table. */
  lemma CityKeysLowerDistinct()
    ensures LowerDistinct(CityCoords)
  {
    KeyCodes0To3(); KeyCodes3To6(); KeyCodes6To9(); KeyCodes9To12(); KeyCodes12To15();
    KeyCodes15To18(); KeyCodes18To21(); KeyCodes21To24(); KeyCodes24To27(); KeyCodes27To30();
    KeyCodesDistinct();
    DistinctCodesSeparateKeys(CityCoords, KeyCodes);
  }

  /** Where each entry of `cities` stands among the keys of `CITY_COORDS`. */
  const CityPosition: seq<nat> := [5, 6, 7, 8, 9, 10, 11, 12, 13, 14, 0, 15, 16, 17, 18, 19, 20, 21, 22, 23, 24, 25, 26, 27, 28, 29]

  lemma CityPositions0To3()
    ensures forall i :: 0 <= i < 3 ==> CityPosition[i] < |CityCoords| && Cities[i] == CityCoords[CityPosition[i]].0
  {
    assert Cities[0] == CityCoords[5].0;
    assert Cities[1] == CityCoords[6].0;
    assert Cities[2] == CityCoords[7].0;
  }

  lemma CityPositions3To6()
    ensures forall i :: 3 <= i < 6 ==> CityPosition[i] < |CityCoords| && Cities[i] == CityCoords[CityPosition[i]].0
  {
    assert Cities[3] == CityCoords[8].0;
    assert Cities[4] == CityCoords[9].0;
    assert Cities[5] == CityCoords[10].0;
  }

  lemma CityPositions6To9()
    ensures forall i :: 6 <= i < 9 ==> CityPosition[i] < |CityCoords| && Cities[i] == CityCoords[CityPosition[i]].0
  {
    assert Cities[6] == CityCoords[11].0;
    assert Cities[7] == CityCoords[12].0;
    assert Cities[8] == CityCoords[13].0;
  }

  lemma CityPositions9To12()
    ensures forall i :: 9 <= i < 12 ==> CityPosition[i] < |CityCoords| && Cities[i] == CityCoords[CityPosition[i]].0
  {
    assert Cities[9] == CityCoords[14].0;
    assert Cities[10] == CityCoords[0].0;
    assert Cities[11] == CityCoords[15].0;
  }

  lemma CityPositions12To15()
    ensures forall i :: 12 <= i < 15 ==> CityPosition[i] < |CityCoords| && Cities[i] == CityCoords[CityPosition[i]].0
  {
    assert Cities[12] == CityCoords[16].0;
    assert Cities[13] == CityCoords[17].0;
    assert Cities[14] == CityCoords[18].0;
  }

  lemma CityPositions15To18()
    ensures forall i :: 15 <= i < 18 ==> CityPosition[i] < |CityCoords| && Cities[i] == CityCoords[CityPosition[i]].0
  {
    assert Cities[15] == CityCoords[19].0;
    assert Cities[16] == CityCoords[20].0;
    assert Cities[17] == CityCoords[21].0;
  }

  lemma CityPositions18To21()
    ensures forall i :: 18 <= i < 21 ==> CityPosition[i] < |CityCoords| && Cities[i] == CityCoords[CityPosition[i]].0
  {
    assert Cities[18] == CityCoords[22].0;
    assert Cities[19] == CityCoords[23].0;
    assert Cities[20] == CityCoords[24].0;
  }

  lemma CityPositions21To24()
    ensures forall i :: 21 <= i < 24 ==> CityPosition[i] < |CityCoords| && Cities[i] == CityCoords[CityPosition[i]].0
  {
    assert Cities[21] == CityCoords[25].0;
    assert Cities[22] == CityCoords[26].0;
    assert Cities[23] == CityCoords[27].0;
  }

  lemma CityPositions24To26()
    ensures forall i :: 24 <= i < 26 ==> CityPosition[i] < |CityCoords| && Cities[i] == CityCoords[CityPosition[i]].0
  {
    assert Cities[24] == CityCoords[28].0;
    assert Cities[25] == CityCoords[29].0;
  }

  lemma CityPositionsDistinct()
    ensures forall i, j :: 0 <= i < j < |CityPosition| ==> CityPosition[i] != CityPosition[j]
  {
  }

  lemma DistinctPositionsGiveDistinctKeys(table: seq<(string, Coords)>, names: seq<string>, positions: seq<nat>)
    requires LowerDistinct(table) && |positions| == |names|
    requires forall i :: 0 <= i < |names| ==> positions[i] < |table| && names[i] == table[positions[i]].0
    requires forall i, j :: 0 <= i < j < |positions| ==> positions[i] != positions[j]
    ensures forall i :: 0 <= i < |names| ==> names[i] in KeySet(table)
    ensures forall i, j :: 0 <= i < j < |names| ==> names[i] != names[j]
  {
    forall i | 0 <= i < |names| ensures names[i] in KeySet(table) {
      assert table[positions[i]].0 in KeySet(table);
    }
    forall i, j | 0 <= i < j < |names| ensures names[i] != names[j] {
      var p, q := positions[i], positions[j];
      if p < q {
        assert Lower(table[p].0) != Lower(table[q].0);
      } else {
        assert Lower(table[q].0) != Lower(table[p].0);
      }
    }
  }

  /** Every selectable city is a key of `CITY_COORDS`, and the 26 entries are pairwise distinct
      (they are used as React keys). */
  lemma CitiesAreDistinctKeys()
    ensures |Cities| == 26
    ensures forall i :: 0 <= i < |Cities| ==> Cities[i] in KeySet(CityCoords)
    ensures forall i, j :: 0 <= i < j < |Cities| ==> Cities[i] != Cities[j]
  {
    CityPositions0To3(); CityPositions3To6(); CityPositions6To9(); CityPositions9To12(); CityPositions12To15();
    CityPositions15To18(); CityPositions18To21(); CityPositions21To24(); CityPositions24To26();
    CityPositionsDistinct();
    CityKeysLowerDistinct();
    DistinctPositionsGiveDistinctKeys(CityCoords, Cities, CityPosition);
  }

  /** The weather lookup for a selectable city always finds that very city: it never answers
      "Coordinates not found" and always makes the Open-Meteo request. */
  lemma SelectableCityFound(i: nat)
    requires i < |Cities|
    ensures FirstMatch(CityCoords, Cities[i]) == Some(Cities[i])
  {
    CitiesAreDistinctKeys();
    CityKeysLowerDistinct();
    var j :| 0 <= j < |CityCoords| && CityCoords[j].0 == Cities[i];
    ExactKeyFound(CityCoords, j);
  }
}
