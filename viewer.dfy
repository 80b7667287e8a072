/** What both components hand to the 3D viewer's mesh material. */
module Viewer {

  predicate IsHexDigit(ch: char) {
    '0' <= ch <= '9' || 'a' <= ch <= 'f'
  }

  /** A CSS colour of the form #rrggbb in lower case. */
  predicate IsHexColor(s: string) {
    |s| == 7 && s[0] == '#' && forall i :: 1 <= i < 7 ==> IsHexDigit(s[i])
  }

  /** Fill colour, metalness and roughness in tenths, and the uniform
      scale in tenths. */
  datatype Binding = Binding(fill: string, metalness: nat, roughness: nat, scale: int)
}
