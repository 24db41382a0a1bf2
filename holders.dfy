/**
 * The mutable boxes through which `apply` hooks hand back a result
 * (`Utils.BooleanHolder` and `Utils.NumberHolder`).  src/utils.ts is not part
 * of this model; only the single `value` field the core reads and writes is
 * kept, with a number as a real.
 */
module Holders {

  class BooleanHolder {
    var value: bool

    constructor (value: bool)
      ensures this.value == value
    {
      this.value := value;
    }
  }

  class NumberHolder {
    var value: real

    constructor (value: real)
      ensures this.value == value
    {
      this.value := value;
    }
  }
}
