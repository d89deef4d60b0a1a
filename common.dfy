/**
 * Values shared by the sign-up screen and the home screen: Kotlin's nullable
 * values, the screens an activity can navigate to, and the way a Kotlin
 * string template renders a nullable value.
 */
module Common {

  /** A Kotlin nullable value: `None` stands for `null`. */
  datatype Option<+T> = None | Some(value: T)

  /** The activities the modelled screens start with an intent. */
  datatype Screen = Login | Settings

  /** The text a Kotlin string template writes for a nullable string. */
  const NullText: string := "null"

  /**
   * `"${x}"` for a nullable string `x`: the string itself, or the four
   * letters `null` when `x` is null.
   */
  function NullableText(x: Option<string>): string
  {
    match x
    case Some(v) => v
    case None => NullText
  }
}
