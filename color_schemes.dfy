/** The colour tables used by the rating scale (src/lib/colorSchemes.ts). */
module ColorSchemes {
  import opened Wrappers

  const SolidSchemeKeys: seq<string> := ["blue", "green", "purple", "red", "amber"]
  const GradientSchemeKeys: seq<string> := ["severity", "satisfaction", "temperature"]

  datatype ColorScheme = ColorScheme(selected: string, hover: string, text: string)

  datatype GradientLabel = GradientLabel(color: string, hover: string)

  datatype GradientScheme = GradientScheme(colors: seq<string>, start: GradientLabel, middle: GradientLabel, end: GradientLabel)

  /** `solidColorSchemes[name]`. */
  function SolidScheme(name: string): Option<ColorScheme> {
    if name == "blue" then Some(ColorScheme("bg-blue-500 border-blue-600", "hover:border-blue-400", "text-blue-600"))
    else if name == "green" then Some(ColorScheme("bg-green-500 border-green-600", "hover:border-green-400", "text-green-600"))
    else if name == "purple" then Some(ColorScheme("bg-purple-500 border-purple-600", "hover:border-purple-400", "text-purple-600"))
    else if name == "red" then Some(ColorScheme("bg-red-500 border-red-600", "hover:border-red-400", "text-red-600"))
    else if name == "amber" then Some(ColorScheme("bg-amber-500 border-amber-600", "hover:border-amber-400", "text-amber-600"))
    else None
  }

  /** `gradientColorSchemes[name]`. */
  function Gradient(name: string): Option<GradientScheme> {
    if name == "severity" then
      Some(GradientScheme(["green", "yellow", "red"],
        GradientLabel("text-green-600", "hover:border-green-400"),
        GradientLabel("text-yellow-600", "hover:border-yellow-400"),
        GradientLabel("text-red-600", "hover:border-red-400")))
    else if name == "satisfaction" then
      Some(GradientScheme(["red", "yellow", "green"],
        GradientLabel("text-red-600", "hover:border-red-400"),
        GradientLabel("text-yellow-600", "hover:border-yellow-400"),
        GradientLabel("text-green-600", "hover:border-green-400")))
    else if name == "temperature" then
      Some(GradientScheme(["blue", "green", "red"],
        GradientLabel("text-blue-600", "hover:border-blue-400"),
        GradientLabel("text-green-600", "hover:border-green-400"),
        GradientLabel("text-red-600", "hover:border-red-400")))
    else None
  }

  /** The Tailwind classes of colour `c`: selected, hover and text. */
  function SelectedClass(c: string): string { "bg-" + c + "-500 border-" + c + "-600" }
  function HoverClass(c: string): string { "hover:border-" + c + "-400" }
  function TextClass(c: string): string { "text-" + c + "-600" }

  /** Exactly five solid keys, each following the naming pattern of its own colour. */
  lemma SolidSchemesTable()
    ensures |SolidSchemeKeys| == 5
    ensures forall i, j :: 0 <= i < j < 5 ==> SolidSchemeKeys[i] != SolidSchemeKeys[j]
    ensures forall x :: SolidScheme(x).Some? <==> x in SolidSchemeKeys
    ensures forall x :: x in SolidSchemeKeys ==>
      SolidScheme(x) == Some(ColorScheme(SelectedClass(x), HoverClass(x), TextClass(x)))
  {
    forall x | x in SolidSchemeKeys
      ensures SolidScheme(x) == Some(ColorScheme(SelectedClass(x), HoverClass(x), TextClass(x)))
    {
      SolidFollowsPattern(x);
    }
  }

  lemma SolidFollowsPattern(x: string)
    requires x in SolidSchemeKeys
    ensures SolidScheme(x) == Some(ColorScheme(SelectedClass(x), HoverClass(x), TextClass(x)))
  {
    ClassNames(x);
  }

  /** The three class names of a colour, spelled out for each colour the tables use. */
  lemma ClassNames(c: string)
    requires c in SolidSchemeKeys || c == "yellow"
    ensures c == "blue" ==> ClassesAre(c, "bg-blue-500 border-blue-600", "hover:border-blue-400", "text-blue-600")
    ensures c == "green" ==> ClassesAre(c, "bg-green-500 border-green-600", "hover:border-green-400", "text-green-600")
    ensures c == "purple" ==> ClassesAre(c, "bg-purple-500 border-purple-600", "hover:border-purple-400", "text-purple-600")
    ensures c == "red" ==> ClassesAre(c, "bg-red-500 border-red-600", "hover:border-red-400", "text-red-600")
    ensures c == "amber" ==> ClassesAre(c, "bg-amber-500 border-amber-600", "hover:border-amber-400", "text-amber-600")
    ensures c == "yellow" ==> ClassesAre(c, "bg-yellow-500 border-yellow-600", "hover:border-yellow-400", "text-yellow-600")
  {
    if c == "blue" { BlueClasses(); }
    if c == "green" { GreenClasses(); }
    if c == "purple" { PurpleClasses(); }
    if c == "red" { RedClasses(); }
    if c == "amber" { AmberClasses(); }
    if c == "yellow" { YellowClasses(); }
  }

  predicate ClassesAre(c: string, selected: string, hover: string, text: string) {
    SelectedClass(c) == selected && HoverClass(c) == hover && TextClass(c) == text
  }

  lemma BlueClasses()
    ensures ClassesAre("blue", "bg-blue-500 border-blue-600", "hover:border-blue-400", "text-blue-600")
  {
    assert "bg-" + "blue" + "-500 border-" == "bg-blue-500 border-";
    assert "bg-blue-500 border-" + "blue" + "-600" == "bg-blue-500 border-blue-600";
  }

  lemma GreenClasses()
    ensures ClassesAre("green", "bg-green-500 border-green-600", "hover:border-green-400", "text-green-600")
  {
    assert "bg-" + "green" + "-500 border-" == "bg-green-500 border-";
    assert "bg-green-500 border-" + "green" + "-600" == "bg-green-500 border-green-600";
  }

  lemma PurpleClasses()
    ensures ClassesAre("purple", "bg-purple-500 border-purple-600", "hover:border-purple-400", "text-purple-600")
  {
    assert "bg-" + "purple" + "-500 border-" == "bg-purple-500 border-";
    assert "bg-purple-500 border-" + "purple" + "-600" == "bg-purple-500 border-purple-600";
  }

  lemma RedClasses()
    ensures ClassesAre("red", "bg-red-500 border-red-600", "hover:border-red-400", "text-red-600")
  {
    assert "bg-" + "red" + "-500 border-" == "bg-red-500 border-";
    assert "bg-red-500 border-" + "red" + "-600" == "bg-red-500 border-red-600";
  }

  lemma AmberClasses()
    ensures ClassesAre("amber", "bg-amber-500 border-amber-600", "hover:border-amber-400", "text-amber-600")
  {
    assert "bg-" + "amber" + "-500 border-" == "bg-amber-500 border-";
    assert "bg-amber-500 border-" + "amber" + "-600" == "bg-amber-500 border-amber-600";
  }

  lemma YellowClasses()
    ensures ClassesAre("yellow", "bg-yellow-500 border-yellow-600", "hover:border-yellow-400", "text-yellow-600")
  {
    assert "bg-" + "yellow" + "-500 border-" == "bg-yellow-500 border-";
    assert "bg-yellow-500 border-" + "yellow" + "-600" == "bg-yellow-500 border-yellow-600";
  }

  /**
    Exactly three gradient keys; each lists three colours, and its start, middle and end
    labels use the text and hover classes of colours 0, 1 and 2.
  */
  lemma GradientSchemesTable()
    ensures |GradientSchemeKeys| == 3
    ensures forall i, j :: 0 <= i < j < 3 ==> GradientSchemeKeys[i] != GradientSchemeKeys[j]
    ensures forall x :: Gradient(x).Some? <==> x in GradientSchemeKeys
    ensures forall x :: x in GradientSchemeKeys ==> GradientFollowsColors(Gradient(x).value)
  {
    forall x | x in GradientSchemeKeys
      ensures GradientFollowsColors(Gradient(x).value)
    {
      ClassNames("green");
      ClassNames("yellow");
      ClassNames("red");
      ClassNames("blue");
    }
  }

  predicate GradientFollowsColors(g: GradientScheme) {
    |g.colors| == 3
    && g.start == GradientLabel(TextClass(g.colors[0]), HoverClass(g.colors[0]))
    && g.middle == GradientLabel(TextClass(g.colors[1]), HoverClass(g.colors[1]))
    && g.end == GradientLabel(TextClass(g.colors[2]), HoverClass(g.colors[2]))
  }

  /** Satisfaction runs through the severity colours backwards. */
  lemma SatisfactionReversesSeverity()
    ensures var sev := Gradient("severity").value.colors;
      var sat := Gradient("satisfaction").value.colors;
      |sat| == |sev| && forall i :: 0 <= i < |sev| ==> sat[i] == sev[|sev| - 1 - i]
  {
  }
}
