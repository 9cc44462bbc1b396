/**
 * JavaScript strings and values as the backend handler sees them.
 *
 * A JavaScript string is a sequence of UTF-16 code units: a character
 * outside the Basic Multilingual Plane occupies two units (a surrogate
 * pair), and regular expressions without the `u` flag see each unit on
 * its own. The model therefore works on `seq<CodeUnit>`, not on Dafny's
 * `string` (whose `char` is a Unicode scalar value).
 */
module Js {

  newtype CodeUnit = u: int | 0 <= u < 0x1_0000

  type JsString = seq<CodeUnit>

  /**
   * The UTF-16 form of a Dafny string literal written in the Basic
   * Multilingual Plane: one code unit per character, equal to its code
   * point. Every fixed text of the handler is such a literal. A character
   * beyond that plane would need a surrogate pair; it is mapped to the
   * replacement character U+FFFD instead, so only BMP text is given here.
   */
  function Bmp(s: string): (r: JsString)
    ensures |r| == |s|
    ensures forall i | 0 <= i < |s| && s[i] as int < 0x1_0000 :: r[i] as int == s[i] as int
  {
    seq(|s|, i requires 0 <= i < |s| => if s[i] as int < 0x1_0000 then s[i] as int as CodeUnit else 0xFFFD)
  }

  /**
   * A value produced by `JSON.parse`, or `undefined` when a property is
   * absent. `Null` and `Undefined` are different values: the handler's
   * `preco !== null` test is true for `undefined`.
   */
  datatype JsValue =
    | Undefined
    | Null
    | Bool(b: bool)
    | Number(n: real)
    | Str(s: JsString)
    | Array(items: seq<JsValue>)
    | Object(members: seq<(JsString, JsValue)>)
}
