/** The catch-quality grades and the Russian labels for them: the trips
    screen's switch and the inline conditional chain of the fish-type, bank
    and boat detail dialogs translate grades on screen; the boats screen also
    defines a lookup table (`getQualityInRussian`) that nothing calls, modelled
    here to compare the two translations in use against it. */
module Quality {
  import opened Seqs

  const Excellent: string := "Отличное"
  const Good: string := "Хорошее"
  const Average: string := "Среднее"
  const Poor: string := "Плохое"

  /** The four grades as the server stores them. */
  const Grades: seq<string> := ["excellent", "good", "average", "poor"]

  const Labels: set<string> := {Excellent, Good, Average, Poor}

  /** ASCII upper-casing, the only case mapping the grades need. */
  function UpperChar(c: char): char
  {
    if 'a' <= c <= 'z' then (c as int - 32) as char else c
  }

  function Upper(s: string): (r: string)
    ensures |r| == |s|
  {
    MapSeq(s, UpperChar)
  }

  /** The trips screen: a switch over three grades; 'average' has no case. */
  function TripsLabel(quality: string): (r: string)
    ensures r != quality <==> quality in {"excellent", "good", "poor"}
    ensures r != quality ==> r in Labels
  {
    match quality
    case "excellent" => Excellent
    case "good" => Good
    case "poor" => Poor
    case _ => quality
  }

  /** The boats screen's table, defined but never called: each grade in upper
      and in lower case. */
  const QualityMap: map<string, string> := map[
    "EXCELLENT" := Excellent,
    "GOOD" := Good,
    "AVERAGE" := Average,
    "POOR" := Poor,
    "excellent" := Excellent,
    "good" := Good,
    "average" := Average,
    "poor" := Poor]

  /** `qualityMap[quality] || quality`: every label is a non-empty string, so
      the fallback is taken exactly for strings outside the table. */
  function TableLabel(quality: string): (r: string)
    ensures quality in QualityMap ==> r == QualityMap[quality] && r in Labels
    ensures quality !in QualityMap ==> r == quality
  {
    if quality in QualityMap && QualityMap[quality] != "" then QualityMap[quality] else quality
  }

  /** The conditional chain of the detail dialogs: the four lower-case grades. */
  function InlineLabel(quality: string): (r: string)
    ensures r != quality <==> quality in Grades
    ensures r != quality ==> r in Labels
  {
    if quality == "excellent" then Excellent
    else if quality == "good" then Good
    else if quality == "average" then Average
    else if quality == "poor" then Poor
    else quality
  }

  /** The upper-case spellings, position by position with `Grades`. */
  const UpperGrades: seq<string> := ["EXCELLENT", "GOOD", "AVERAGE", "POOR"]

  lemma UpperGradesAreUpper()
    ensures forall i :: 0 <= i < 4 ==> Upper(Grades[i]) == UpperGrades[i]
  {
    assert Upper("excellent") == "EXCELLENT" by {
      assert forall i :: 0 <= i < 9 ==> Upper("excellent")[i] == UpperChar("excellent"[i]);
    }
    assert Upper("good") == "GOOD" by {
      assert forall i :: 0 <= i < 4 ==> Upper("good")[i] == UpperChar("good"[i]);
    }
    assert Upper("average") == "AVERAGE" by {
      assert forall i :: 0 <= i < 7 ==> Upper("average")[i] == UpperChar("average"[i]);
    }
    assert Upper("poor") == "POOR" by {
      assert forall i :: 0 <= i < 4 ==> Upper("poor")[i] == UpperChar("poor"[i]);
    }
  }

  /** The table gives a grade the same label in upper and in lower case. */
  lemma TableIgnoresCase(g: string)
    requires g in Grades
    ensures TableLabel(Upper(g)) == TableLabel(g)
    ensures TableLabel(g) in Labels
  {
    UpperGradesAreUpper();
  }

  /** The table's keys are the four grades in both cases. */
  lemma TableKeys()
    ensures forall k :: k in QualityMap <==> k in Grades || k in UpperGrades
  {
    forall k ensures k in QualityMap <==> k in Grades || k in UpperGrades {
      assert k in QualityMap.Keys <==> k in {"EXCELLENT", "GOOD", "AVERAGE", "POOR"} || k in {"excellent", "good", "average", "poor"};
    }
  }

  /** Both spellings of a grade reach the same label. */
  lemma TableSpellingsAgree()
    ensures forall i :: 0 <= i < 4 ==> QualityMap[Grades[i]] == QualityMap[UpperGrades[i]]
  {
  }

  /** The eight keys map onto exactly the four labels. */
  lemma TableHasFourLabels()
    ensures QualityMap.Values == Labels && |Labels| == 4
  {
    assert QualityMap.Values == Labels by {
      assert QualityMap["excellent"] == Excellent && QualityMap["good"] == Good;
      assert QualityMap["average"] == Average && QualityMap["poor"] == Poor;
    }
    assert Excellent != Good && Excellent != Average && Excellent != Poor;
    assert Good != Average && Good != Poor && Average != Poor;
  }

  /** The inline chain and the table agree on every string except the four
      upper-case grades, which the chain leaves untranslated. */
  lemma InlineAgreesWithTable(quality: string)
    ensures quality !in UpperGrades ==> InlineLabel(quality) == TableLabel(quality)
    ensures quality in UpperGrades ==> InlineLabel(quality) == quality && TableLabel(quality) != quality
  {
    if quality in UpperGrades {
      assert quality !in Grades;
    } else if quality in Grades {
    } else {
      assert quality !in QualityMap;
    }
  }

  /** The trips screen agrees with the table on three grades and leaves
      'average' untranslated where the table gives it a label. */
  lemma TripsLabelAgainstTable(quality: string)
    ensures quality in {"excellent", "good", "poor"} ==> TripsLabel(quality) == TableLabel(quality)
    ensures TripsLabel("average") == "average" && TableLabel("average") == Average
  {
  }
}
