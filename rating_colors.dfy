/**
  Colour selection for rating buttons and labels
  (src/components/field/RatingScale/useRatingColors.ts).

  Positions are exact reals: the source's 0.33 and 0.66 are IEEE doubles, and a
  scale with maxValue == minValue divides by zero there; both are outside this model.
*/
module RatingColors {
  import opened Wrappers
  import opened ColorSchemes

  /** `gradientScheme && gradientColorSchemes[gradientScheme]`. */
  predicate UseGradient(gradient: Option<string>) {
    gradient.Some? && Gradient(gradient.value).Some?
  }

  /** `(value - minValue) / (maxValue - minValue)`. */
  function Position(value: real, minValue: real, maxValue: real): real
    requires minValue != maxValue
  {
    (value - minValue) / (maxValue - minValue)
  }

  /** Which third of the scale a position falls in: 0, 1 or 2. */
  function Bucket(position: real): (b: nat)
    ensures b <= 2
    ensures b == 0 <==> position <= 0.33
    ensures b == 2 <==> position > 0.66
  {
    if position <= 0.33 then 0 else if position <= 0.66 then 1 else 2
  }

  datatype ButtonColors = ButtonColors(selected: string, hover: string)

  /**
    `getButtonColors(value)`: with a gradient, the classes of the colour of the value's
    third of the scale; otherwise the solid scheme's selected and hover classes.
  */
  function GetButtonColors(minValue: real, maxValue: real, colorScheme: string,
                           gradient: Option<string>, value: real): (c: ButtonColors)
    requires SolidScheme(colorScheme).Some?
    requires UseGradient(gradient) ==> minValue != maxValue
    ensures !UseGradient(gradient) ==>
      c == ButtonColors(SolidScheme(colorScheme).value.selected, SolidScheme(colorScheme).value.hover)
    ensures UseGradient(gradient) ==>
      var color := Gradient(gradient.value).value.colors[Bucket(Position(value, minValue, maxValue))];
      c == ButtonColors(SelectedClass(color), HoverClass(color))
  {
    if UseGradient(gradient) then
      var colors := Gradient(gradient.value).value.colors;
      GradientSchemesHaveThreeColors(gradient.value);
      var position := (value - minValue) / (maxValue - minValue);
      if position <= 0.33 then
        ButtonColors("bg-" + colors[0] + "-500 border-" + colors[0] + "-600", "hover:border-" + colors[0] + "-400")
      else if position <= 0.66 then
        ButtonColors("bg-" + colors[1] + "-500 border-" + colors[1] + "-600", "hover:border-" + colors[1] + "-400")
      else
        ButtonColors("bg-" + colors[2] + "-500 border-" + colors[2] + "-600", "hover:border-" + colors[2] + "-400")
    else
      var solid := SolidScheme(colorScheme).value;
      ButtonColors(solid.selected, solid.hover)
  }

  lemma GradientSchemesHaveThreeColors(name: string)
    requires Gradient(name).Some?
    ensures GradientFollowsColors(Gradient(name).value)
  {
    GradientSchemesTable();
  }

  datatype LabelPosition = Start | Middle | End

  /** `getLabelColor(position)`: the gradient's label colour, else the solid text colour. */
  function GetLabelColor(colorScheme: string, gradient: Option<string>, position: LabelPosition): (color: string)
    requires SolidScheme(colorScheme).Some?
    ensures !UseGradient(gradient) ==> color == SolidScheme(colorScheme).value.text
    ensures UseGradient(gradient) ==>
      var g := Gradient(gradient.value).value;
      color == TextClass(g.colors[match position case Start => 0 case Middle => 1 case End => 2])
  {
    if !UseGradient(gradient) then SolidScheme(colorScheme).value.text
    else
      var g := Gradient(gradient.value).value;
      GradientSchemesHaveThreeColors(gradient.value);
      match position
      case Start => g.start.color
      case Middle => g.middle.color
      case End => g.end.color
  }

  /** `labelColor(index)`: the same thirds as the buttons, picking the start, middle or end label. */
  function LabelColor(minValue: real, maxValue: real, colorScheme: string,
                      gradient: Option<string>, index: real): (color: string)
    requires SolidScheme(colorScheme).Some?
    requires UseGradient(gradient) ==> minValue != maxValue
    ensures !UseGradient(gradient) ==> color == SolidScheme(colorScheme).value.text
    ensures UseGradient(gradient) ==>
      color == TextClass(Gradient(gradient.value).value.colors[Bucket(Position(index, minValue, maxValue))])
  {
    if !UseGradient(gradient) then SolidScheme(colorScheme).value.text
    else
      var labels := Gradient(gradient.value).value;
      GradientSchemesHaveThreeColors(gradient.value);
      var position := (index - minValue) / (maxValue - minValue);
      if position <= 0.33 then labels.start.color
      else if position <= 0.66 then labels.middle.color
      else labels.end.color
  }

  /** Moving up the scale never moves to an earlier third. */
  lemma {:induction false} BucketMonotone(v1: real, v2: real, minValue: real, maxValue: real)
    requires minValue < maxValue && v1 <= v2
    ensures Bucket(Position(v1, minValue, maxValue)) <= Bucket(Position(v2, minValue, maxValue))
  {
    PositionMonotone(v1, v2, minValue, maxValue);
  }

  lemma PositionMonotone(v1: real, v2: real, minValue: real, maxValue: real)
    requires minValue < maxValue && v1 <= v2
    ensures Position(v1, minValue, maxValue) <= Position(v2, minValue, maxValue)
  {
    var d := maxValue - minValue;
    assert Position(v2, minValue, maxValue) - Position(v1, minValue, maxValue) == (v2 - v1) / d;
  }

  /**
    On an inverted scale (a maximum below the minimum, which the schema accepts) the
    position runs backwards, so moving up the values never moves to a later third.
  */
  lemma {:induction false} InvertedScaleReverses(v1: real, v2: real, minValue: real, maxValue: real)
    requires maxValue < minValue && v1 <= v2
    ensures Bucket(Position(v2, minValue, maxValue)) <= Bucket(Position(v1, minValue, maxValue))
  {
    var e := minValue - maxValue;
    assert Position(v1, minValue, maxValue) == (minValue - v1) / e;
    assert Position(v2, minValue, maxValue) == (minValue - v2) / e;
    assert (minValue - v1) / e - (minValue - v2) / e == (v2 - v1) / e;
  }

  /**
    The minimum value takes the first colour and the maximum the third, on an inverted
    scale as well.
  */
  lemma EndsOfScale(minValue: real, maxValue: real)
    requires minValue != maxValue
    ensures Bucket(Position(minValue, minValue, maxValue)) == 0
    ensures Bucket(Position(maxValue, minValue, maxValue)) == 2
  {
    var d := maxValue - minValue;
    assert d / d == 1.0 by { DivSelf(d); }
  }

  lemma DivSelf(d: real)
    requires d != 0.0
    ensures d / d == 1.0
  {
  }

  /** With a gradient, a value's label shares the colour of its button. */
  lemma LabelMatchesButton(minValue: real, maxValue: real, colorScheme: string, gradient: Option<string>, v: real)
    requires SolidScheme(colorScheme).Some? && UseGradient(gradient) && minValue != maxValue
    ensures var color := Gradient(gradient.value).value.colors[Bucket(Position(v, minValue, maxValue))];
      GetButtonColors(minValue, maxValue, colorScheme, gradient, v) == ButtonColors(SelectedClass(color), HoverClass(color))
      && LabelColor(minValue, maxValue, colorScheme, gradient, v) == TextClass(color)
  {
    GradientSchemesHaveThreeColors(gradient.value);
  }
}
