/** Values shared by both screens: an Option wrapper and the three shapes a
    numeric JSON field takes once JavaScript has read it. */
module Values {

  datatype Option<+T> = None | Some(value: T)

  /** A numeric sensor field as JavaScript sees it: `null` (the logger sent
      null), `undefined` (the key is missing from the payload) or a number. */
  datatype JsNumber = Null | Undefined | Num(n: real)

  /** The field holds a number: it is neither null nor undefined. */
  predicate IsPresent(v: JsNumber) {
    v.Num?
  }
}
