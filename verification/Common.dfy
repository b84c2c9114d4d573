/**
 * What the models of the core, the caches and the predictor share.
 */
module Common {

  datatype Option<T> = None | Some(value: T)

  /** Bytes of an instruction. */
  const INST_SIZE: nat := 8
}
