/**
 * The two pure helpers of the release-list components
 * (src/components/ceviriler/components.js): `getIcon`, which picks the icon
 * shown beside a credit or metadata key, and `episodeParser`, which formats
 * the label of an episode from its number and its optional special type.
 */
module CreditLabels {
  import opened Wrappers

  // ---------------------------------------------------------------------
  // getIcon
  // ---------------------------------------------------------------------

  /** The six icon images the switch can return. */
  datatype Icon = BookIcon | ComputerIcon | PaintbrushIcon | AnchorIcon | CalendarIcon | VideoIcon

  /** The icon lookup table written as data, independently of the switch. */
  const IconTable: map<string, Icon> := map[
    "translator" := BookIcon,
    "encoder" := ComputerIcon,
    "editor" := PaintbrushIcon,
    "genres" := AnchorIcon,
    "time" := CalendarIcon,
    "studio" := VideoIcon
  ]

  /**
   * `getIcon(icon)`: the switch over the key, case by case in source order;
   * the `default` branch's `false` is `None`.
   */
  function GetIcon(key: string): (r: Option<Icon>)
    ensures r.Some? <==> key in IconTable
    ensures r.Some? ==> r.value == IconTable[key]
  {
    if key == "translator" then Some(BookIcon)
    else if key == "encoder" then Some(ComputerIcon)
    else if key == "editor" then Some(PaintbrushIcon)
    else if key == "genres" then Some(AnchorIcon)
    else if key == "time" then Some(CalendarIcon)
    else if key == "studio" then Some(VideoIcon)
    else None
  }

  /** Exactly six keys have an icon, and no two of them share one. */
  lemma IconKeysAreDistinct(k1: string, k2: string)
    requires GetIcon(k1).Some? && GetIcon(k2).Some? && k1 != k2
    ensures GetIcon(k1) != GetIcon(k2)
    ensures |IconTable| == 6
  {
    assert IconTable.Keys == {"translator", "encoder", "editor", "genres", "time", "studio"};
  }

  // ---------------------------------------------------------------------
  // episodeParser
  // ---------------------------------------------------------------------

  /** The label of a batch ("toplu") release, written with a dotted capital I. */
  const BatchLabel: string := "TOPLU L\U{0130}NK"

  /** The suffix of an ordinary episode label: ". Bölüm". */
  const EpisodeSuffix: string := ". B\U{00F6}l\U{00FC}m"

  /** The special type that selects the batch label. */
  const BatchType: string := "toplu"

  /** JavaScript truthiness of the `specialtype` argument: present and not empty. */
  predicate Truthy(special: Option<string>) {
    special.Some? && special.value != ""
  }

  /** ASCII upper-casing of one character; everything outside `a`..`z` is kept. */
  function UpperChar(c: char): (u: char)
    ensures 'a' <= c <= 'z' ==> 'A' <= u <= 'Z' && u as int == c as int - 32
    ensures !('a' <= c <= 'z') ==> u == c
  {
    if 'a' <= c <= 'z' then (c as int - 32) as char else c
  }

  /** `toUpperCase` restricted to ASCII letters, character by character. */
  function Upper(s: string): (r: string)
    ensures |r| == |s|
    ensures forall i :: 0 <= i < |s| ==> r[i] == UpperChar(s[i])
  {
    if s == [] then [] else [UpperChar(s[0])] + Upper(s[1..])
  }

  /** Which of the three label forms a special type selects. */
  datatype LabelKind = Batch | Special | Numbered

  function KindOf(special: Option<string>): (k: LabelKind)
    ensures k == Batch <==> special == Some(BatchType)
    ensures k == Special <==> Truthy(special) && special.value != BatchType
    ensures k == Numbered <==> !Truthy(special)
  {
    if special == Some(BatchType) then Batch
    else if Truthy(special) then Special
    else Numbered
  }

  /**
   * `episodeParser(episodenumber, specialtype)`. The episode number is taken
   * as the text that the template string interpolates.
   */
  function EpisodeParser(number: string, special: Option<string>): (r: string)
    ensures r != []
    ensures KindOf(special) == Batch ==> r == BatchLabel
    ensures KindOf(special) == Special ==>
      var t := special.value;
      && |r| == |t| + 1 + |number|
      && r[..|t|] == Upper(t) && r[|t|] == ' ' && r[|t| + 1..] == number
    ensures KindOf(special) == Numbered ==>
      && |r| == |number| + |EpisodeSuffix|
      && r[..|number|] == number && r[|number|..] == EpisodeSuffix
  {
    if special == Some(BatchType) then BatchLabel
    else if Truthy(special) && special.value != BatchType then Upper(special.value) + " " + number
    else number + EpisodeSuffix
  }

  /** The batch label does not depend on the episode number. */
  lemma BatchIgnoresNumber(n1: string, n2: string)
    ensures EpisodeParser(n1, Some(BatchType)) == EpisodeParser(n2, Some(BatchType))
  {
  }

  /**
   * Outside the batch form a label determines the episode number: two
   * numbers with the same special type get the same label only if equal.
   */
  lemma LabelDeterminesNumber(n1: string, n2: string, special: Option<string>)
    requires KindOf(special) != Batch
    requires EpisodeParser(n1, special) == EpisodeParser(n2, special)
    ensures n1 == n2
  {
    var r := EpisodeParser(n1, special);
    if KindOf(special) == Special {
      var t := special.value;
      assert n1 == r[|t| + 1..] == n2;
    } else {
      assert |n1| == |n2|;
      assert n1 == r[..|n1|] == n2;
    }
  }

  /** An ordinary label gives back its number once the suffix is cut off. */
  lemma NumberedLabelRoundTrip(number: string, special: Option<string>)
    requires !Truthy(special)
    ensures var r := EpisodeParser(number, special);
      |r| >= |EpisodeSuffix| && r[..|r| - |EpisodeSuffix|] == number
  {
  }
}
