// The colour-therapy game (ColorTherapyGame): a selection of palette
// colours toggled by clicks, a colour recommendation per mood, and a
// random three-colour palette. The random order of `sort(() => 0.5 -
// Math.random())` is a parameter: some ordering of the eight colours.

module ColorTherapy {
  import opened Seqs

  datatype ColorItem = ColorItem(name: string, color: string, emotion: string)

  const Colors: seq<ColorItem> := [
    ColorItem("Tranquilidad", "#87CEEB", "calma"),
    ColorItem("Energía", "#FFD700", "alegría"),
    ColorItem("Naturaleza", "#90EE90", "equilibrio"),
    ColorItem("Pasión", "#FF6B6B", "fuerza"),
    ColorItem("Serenidad", "#DDA0DD", "paz"),
    ColorItem("Confianza", "#4169E1", "seguridad"),
    ColorItem("Creatividad", "#FF8C00", "inspiración"),
    ColorItem("Pureza", "#F8F8FF", "claridad")
  ]

  /** The eight colour codes, in palette order. */
  function Palette(): (p: seq<string>)
    ensures |p| == |Colors| && forall k :: 0 <= k < |Colors| ==> p[k] == Colors[k].color
  {
    seq(|Colors|, k requires 0 <= k < |Colors| => Colors[k].color)
  }

  datatype Mood = Mood(name: string, recommendation: seq<string>)

  const Moods: seq<Mood> := [
    Mood("Ansioso/a", ["#87CEEB", "#DDA0DD", "#90EE90"]),
    Mood("Triste", ["#FFD700", "#FF8C00", "#FF6B6B"]),
    Mood("Estresado/a", ["#90EE90", "#87CEEB", "#F8F8FF"]),
    Mood("Energético/a", ["#4169E1", "#FF6B6B", "#FF8C00"])
  ]

  /** The palette lists each colour's code once. */
  lemma PaletteShape()
    ensures |Palette()| == 8
    ensures Palette() == ["#87CEEB", "#FFD700", "#90EE90", "#FF6B6B", "#DDA0DD", "#4169E1", "#FF8C00", "#F8F8FF"]
    ensures NoDuplicates(Palette())
  {
  }

  // ---------------------------------------------------------------------
  // Selecting

  /** `handleColorClick(color)`: a selected colour is filtered out, any
      other is appended at the end. */
  function ColorClick(selected: seq<string>, color: string): (r: seq<string>)
    ensures color in selected ==> color !in r && multiset(r) == multiset(selected)[color := 0]
    ensures color !in selected ==> r == selected + [color]
  {
    if color in selected then
      WithoutCount(selected, color);
      Without(selected, color)
    else selected + [color]
  }

  /** A click never creates a duplicate. */
  lemma ClickKeepsDistinct(selected: seq<string>, color: string)
    requires NoDuplicates(selected)
    ensures NoDuplicates(ColorClick(selected, color))
  {
    if color in selected {
      WithoutDistinct(selected, color);
    }
  }

  /** Two clicks on an unselected colour restore the selection. Two clicks
      on a selected one, in a selection without repeats, keep the same
      colours but move that one to the end. */
  lemma ClickTwice(selected: seq<string>, color: string)
    requires NoDuplicates(selected)
    ensures color !in selected ==> ColorClick(ColorClick(selected, color), color) == selected
    ensures color in selected ==>
              ColorClick(ColorClick(selected, color), color) == Without(selected, color) + [color]
              && multiset(ColorClick(ColorClick(selected, color), color)) == multiset(selected)
  {
    if color !in selected {
      WithoutAppended(selected, color);
    } else {
      OccursOnce(selected, color);
      var r := Without(selected, color);
      assert multiset(r + [color]) == multiset(r) + multiset{color};
    }
  }

  // ---------------------------------------------------------------------
  // Recommending

  /** `moods.find(mood => mood.name === currentMood)?.recommendation || []`. */
  function Recommendation(moods: seq<Mood>, currentMood: string): (r: seq<string>)
    ensures (forall k :: 0 <= k < |moods| ==> moods[k].name != currentMood) ==> r == []
    ensures forall k :: (0 <= k < |moods| && moods[k].name == currentMood
                         && forall j :: 0 <= j < k ==> moods[j].name != currentMood)
                        ==> r == moods[k].recommendation
  {
    if moods == [] then []
    else if moods[0].name == currentMood then moods[0].recommendation
    else
      var r := Recommendation(moods[1..], currentMood);
      assert forall k :: 1 <= k < |moods| ==> moods[1..][k - 1] == moods[k];
      r
  }

  function GetRecommendation(currentMood: string): seq<string>
  {
    Recommendation(Moods, currentMood)
  }

  /** Each mood button gets its own list of three colours, every one of them
      from the palette; the initial empty mood and every other name get none. */
  lemma Recommendations(k: nat, other: string)
    requires k < |Moods|
    requires forall j :: 0 <= j < |Moods| ==> Moods[j].name != other
    ensures GetRecommendation(Moods[k].name) == Moods[k].recommendation
    ensures |GetRecommendation(Moods[k].name)| == 3
    ensures forall c :: c in GetRecommendation(Moods[k].name) ==> c in Palette()
    ensures GetRecommendation(other) == [] && GetRecommendation("") == []
  {
    assert forall j :: 0 <= j < |Moods| ==> |Moods[j].name| > 0;
    PaletteShape();
  }

  // ---------------------------------------------------------------------
  // Random palette

  /** An ordering of the eight colours: each position 0 to 7 once. */
  predicate IsOrdering(order: seq<int>)
  {
    |order| == |Colors| && NoDuplicates(order) && forall k :: 0 <= k < |order| ==> 0 <= order[k] < |Colors|
  }

  /** `generateRandomPalette`: the codes of the first three colours of the
      shuffled list. */
  function RandomPalette(order: seq<int>): (r: seq<string>)
    requires IsOrdering(order)
    ensures |r| == 3 && NoDuplicates(r)
    ensures forall c :: c in r ==> c in Palette()
  {
    PaletteShape();
    [Colors[order[0]].color, Colors[order[1]].color, Colors[order[2]].color]
  }

  // ---------------------------------------------------------------------
  // The component

  class ColorTherapyGame {
    var selectedColors: seq<string>
    var currentMood: string

    predicate Valid()
      reads this
    {
      NoDuplicates(selectedColors)
    }

    constructor ()
      ensures Valid() && selectedColors == [] && currentMood == ""
    {
      selectedColors := [];
      currentMood := "";
    }

    method HandleColorClick(color: string)
      requires Valid()
      modifies this
      ensures Valid() && selectedColors == ColorClick(old(selectedColors), color)
      ensures currentMood == old(currentMood)
    {
      ClickKeepsDistinct(selectedColors, color);
      if color in selectedColors {
        selectedColors := Without(selectedColors, color);
      } else {
        selectedColors := selectedColors + [color];
      }
    }

    method SetCurrentMood(mood: string)
      modifies this
      ensures currentMood == mood && selectedColors == old(selectedColors)
    {
      currentMood := mood;
    }

    method GenerateRandomPalette(order: seq<int>)
      requires IsOrdering(order)
      modifies this
      ensures Valid() && selectedColors == RandomPalette(order)
      ensures currentMood == old(currentMood)
    {
      selectedColors := RandomPalette(order);
    }
  }
}
