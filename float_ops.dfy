/** The doubles the macro computes from measured values. They are kept as
    the expression that computes them, never evaluated: the model tracks
    which operation is applied to which value, not what it yields. */
module FloatOps {

  datatype Value =
    | Lit(x: real)                  // a double read from the input, or a literal
    | Scaled(arg: Value)            // arg * TMath::Power(10, 7)
    | Ln(arg: Value)                // TMath::Log(arg)
    | Quotient(n: Value, d: Value)  // n / d
}
