/** Shared constants of the radio package (switch levels and mute actions). */
module Constants {

  /** Pull resistor mode values used by the button classes. */
  const UP: int := 1
  const DOWN: int := 0

  /** Music player actions on mute. */
  const PAUSE: int := 0
  const STOP: int := 1

  /**
   * Values of the GPIO library's pull constants. They come from the GPIO
   * library, not from the radio package, and are what a caller gets when it
   * leaves a pull mode at its library default.
   */
  const PUD_OFF: int := 20
  const PUD_DOWN: int := 21
  const PUD_UP: int := 22
}
