/**
  Font-size and alignment keys shared by the heading fields
  (src/components/field/utils/fontStyles.ts): the schemas accept exactly these keys.
*/
module FontStyles {
  const FontSizeKeys: seq<string> := ["h1", "h2", "h3", "h4"]
  const AlignmentKeys: seq<string> := ["left", "center", "right"]
}
