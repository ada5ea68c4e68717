/** Blank text, as the source's trimming tests see it. */
module Text {

  predicate IsSpace(c: char) {
    var code := c as int;
    || 0x09 <= code <= 0x0d || code == 0x20 || code == 0x85 || code == 0xa0 || code == 0x1680
    || 0x2000 <= code <= 0x200a || code == 0x2028 || code == 0x2029 || code == 0x202f || code == 0x205f || code == 0x3000
  }

  /** Nothing is left of the text once surrounding white space is trimmed. */
  predicate Blank(text: string) {
    forall c :: c in text ==> IsSpace(c)
  }
}
