/** Host-side matrices as the input layer reads them. */
module Matrices {

  type FloatArray = seq<real>

  /** A host matrix; floats are kept as uninterpreted reals. */
  datatype Matrix = FloatMatrix(numberRows: int, numberColumns: int, entries: FloatArray)
}
