/** The exceptions the build-configuration code throws. Each carries what the
    Kotlin code puts into it; none is ever caught inside the modelled code. */
module Exceptions {

  datatype Exception =
      /** groovy.lang.MissingPropertyException(name, String::class.java) */
    | MissingPropertyException(property: string)
      /** kotlin.TypeCastException(message) */
    | TypeCastException(message: string)
      /** java.lang.IllegalStateException, thrown by Kotlin's `error(message)` */
    | IllegalStateException(message: string)
}
