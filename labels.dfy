/** The closed table from the classifier's class index to the sign it stands for. */
module Labels {

  /** `labels_dict`: class index to sign label. */
  const LabelsDict: map<int, string> := map[
    0 := "A", 1 := "B", 2 := "G", 3 := "L", 4 := "S", 5 := "Space", 6 := "nothing",
    7 := "Z", 8 := "Y", 9 := "W", 10 := "O", 11 := "P", 12 := "N", 13 := "J"]

  /** The label shown when the class index has no entry. */
  const Unknown: string := "?"

  /** The sign vocabulary listed in class-index order (a second statement of the table). */
  const Vocabulary: seq<string> :=
    ["A", "B", "G", "L", "S", "Space", "nothing", "Z", "Y", "W", "O", "P", "N", "J"]

  /** `labels_dict.get(k, '?')`: total over every integer. */
  function LabelOf(k: int): (name: string)
    ensures 0 <= k < |Vocabulary| ==> name == Vocabulary[k]
    ensures !(0 <= k < |Vocabulary|) ==> name == Unknown
  {
    if k in LabelsDict then LabelsDict[k] else Unknown
  }

  /** '?' is returned exactly for the indices outside the table, so it never
      doubles as a real sign. */
  lemma UnknownExactlyOffTable(k: int)
    ensures LabelOf(k) == Unknown <==> !(0 <= k < 14)
  {
    if 0 <= k < 14 {
      assert Unknown !in Vocabulary;
    }
  }

  /** Distinct class indices in the table give distinct labels. */
  lemma LabelsDistinct(j: int, k: int)
    requires 0 <= j < 14 && 0 <= k < 14 && j != k
    ensures LabelOf(j) != LabelOf(k)
  {
  }
}
