/** Value types shared by the schemas, the object store and the handlers. */
module Primitives {

  /** One byte of an uploaded or stored file. */
  newtype byte = x: int | 0 <= x < 256

  /**
   * A last-modified instant as the object store reports it. The model never
   * inspects it: it is only stored, copied and compared for equality.
   */
  datatype Timestamp = Timestamp(ticks: int)
}
