/**
 * Units used for amounts throughout the model. The application keeps amounts
 * in JavaScript numbers; the model keeps them exact.
 */
module Units {
  /** A currency amount in cents (R$ 12,34 is 1234). */
  type Cents = int

  /** A percentage in hundredths of a percent (2,5% is 250). */
  type BasisPoints = int
}
