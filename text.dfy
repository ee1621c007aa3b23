/** Character classes shared by the string functions of the model. */
module Text {

  /** An ASCII decimal digit. */
  predicate IsDigit(c: char)
  {
    '0' <= c <= '9'
  }

}
