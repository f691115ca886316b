/**
 * How a task's people are written: as Discord mentions `<@id>` joined by
 * `", "`, or as a placeholder when it has no names or none of them resolved.
 */
module Mentions {
  import opened Text

  /** The placeholder for a task without names. */
  const Unassigned: string := "SIN ASIGNAR"
  /** The placeholder the area and DM listings use for names that resolved to no id. */
  const BadFormat: string := "Formato incorrecto"
  /** The department channel's longer wording of it. */
  const BadFormatLong: string := BadFormat + " (si son varios asignados, separarlos con comas)"
  /** The `groupBy` key of a task without ids. */
  const UnassignedKey: string := "SIN_ASIGNAR"

  /** The placeholders are pairwise different and none opens like a mention. */
  lemma Placeholders()
    ensures Unassigned[..2] == UnassignedKey[..2] == "SI"
    ensures BadFormatLong[..2] == BadFormat[..2] == "Fo"
    ensures Unassigned != UnassignedKey && BadFormat != BadFormatLong
  {
    assert Unassigned[3] == ' ' && UnassignedKey[3] == '_';
    assert BadFormat[0] == 'F' && BadFormat[1] == 'o';
    assert BadFormatLong[..2] == BadFormat[..2];
  }

  function Mention(id: string): string {
    "<@" + id + ">"
  }

  function MentionsOf(ids: seq<string>): (r: seq<string>)
    ensures |r| == |ids|
    ensures forall i :: 0 <= i < |ids| ==> r[i] == Mention(ids[i])
  {
    if ids == [] then [] else [Mention(ids[0])] + MentionsOf(ids[1..])
  }

  /** `ids.map(id => `<@${id}>`).join(', ')`: empty for no ids, else it opens with a mention. */
  function MentionList(ids: seq<string>): (r: string)
    ensures ids == [] <==> r == ""
    ensures ids != [] ==> |r| >= 2 && r[..2] == "<@"
  {
    var ms := MentionsOf(ids);
    if ids == [] then ""
    else
      assert ms[0][..2] == "<@";
      JoinPrefix(ms, ", ");
      Join(ms, ", ")
  }

  lemma JoinPrefix(parts: seq<string>, sep: string)
    requires parts != [] && |parts[0]| >= 2
    ensures |Join(parts, sep)| >= 2 && Join(parts, sep)[..2] == parts[0][..2]
  {
    if |parts| > 1 {
      assert Join(parts, sep) == parts[0] + (sep + Join(parts[1..], sep));
    }
  }

  /**
   * The choice in `sendDepartment` (index.js:210-217), which tests the names
   * first: no names, names without ids, or the mentions.
   */
  function MentionNamesFirst(nombres: seq<string>, ids: seq<string>): (r: string)
    ensures r == Unassigned <==> nombres == []
    ensures r == BadFormatLong <==> nombres != [] && ids == []
    ensures |r| >= 2 && (r[..2] == "<@" <==> nombres != [] && ids != [])
  {
    Placeholders();
    if |nombres| == 0 then Unassigned
    else if |ids| == 0 then BadFormatLong
    else MentionList(ids)
  }

  /**
   * The choice in `sendArea` and the DM listings (index.js:354-356,
   * index.js:446-448), which tests the ids first.
   */
  function MentionIdsFirst(nombres: seq<string>, ids: seq<string>): (r: string)
    ensures r == Unassigned <==> nombres == [] && ids == []
    ensures r == BadFormat <==> nombres != [] && ids == []
    ensures |r| >= 2 && (r[..2] == "<@" <==> ids != [])
  {
    Placeholders();
    if |ids| > 0 then MentionList(ids)
    else if |nombres| > 0 then BadFormat
    else Unassigned
  }

  /**
   * When ids imply names, as for every task of the department sheet, both
   * choices pick the same outcome: the same placeholder for no names, their
   * own wording for unresolved names, the same mentions otherwise.
   */
  lemma MentionChoicesAgree(nombres: seq<string>, ids: seq<string>)
    requires ids != [] ==> nombres != []
    ensures MentionNamesFirst(nombres, ids) == Unassigned <==> MentionIdsFirst(nombres, ids) == Unassigned
    ensures MentionNamesFirst(nombres, ids) == BadFormatLong <==> MentionIdsFirst(nombres, ids) == BadFormat
    ensures ids != [] ==> MentionNamesFirst(nombres, ids) == MentionIdsFirst(nombres, ids)
  {
  }

  /** Without that condition the two choices part ways: ids but no names. */
  lemma MentionChoicesDiffer()
    ensures MentionNamesFirst([], ["1"]) == Unassigned
    ensures MentionIdsFirst([], ["1"]) == "<@1>"
  {
    assert Mention("1") == "<@1>";
    assert MentionsOf(["1"]) == [Mention("1")] + MentionsOf([]);
  }

  /** The `groupBy` key (index.js:280-282): the joined mentions, or `SIN_ASIGNAR` for a task without ids. */
  function KeyOf(ids: seq<string>): (k: string)
    ensures k == UnassignedKey <==> ids == []
    ensures ids != [] ==> |k| >= 2 && k[..2] == "<@"
  {
    Placeholders();
    if |ids| > 0 then MentionList(ids) else UnassignedKey
  }
}
