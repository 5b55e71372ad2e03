/** White space as Go's unicode package sees it. */
module Spaces {

  predicate IsSpace(c: char) {
    || c in {' ', '\t', '\n', '\r', '\U{000B}', '\U{000C}', '\U{0085}', '\U{00A0}', '\U{1680}'}
    || '\U{2000}' <= c <= '\U{200A}'
    || c in {'\U{2028}', '\U{2029}', '\U{202F}', '\U{205F}', '\U{3000}'}
  }

  /** By code point: tab to carriage return, space, next line, and the space separators of Unicode, among them
      no-break space, line and paragraph separator. */
  lemma SpacesExactly(c: char)
    ensures IsSpace(c) <==>
      || 9 <= c as int <= 13 || c as int == 32 || c as int == 133 || c as int == 160 || c as int == 5760
      || 8192 <= c as int <= 8202 || c as int == 8232 || c as int == 8233 || c as int == 8239
      || c as int == 8287 || c as int == 12288
  {
  }
}
