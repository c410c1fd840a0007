/**
 * Labels that both keyboards, the platform layer's and the GUI's, attach
 * to their digit and letter keys.
 */
module KeyLabels {
  type Decimal = d: int | 0 <= d <= 9
  type Upper = c: char | 'A' <= c <= 'Z' witness 'A'
}
