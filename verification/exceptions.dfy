/** The Kotlin exceptions the modelled code throws, each with its message.
    The router and the two processors share them. */
module Exceptions {

  datatype KotlinException =
    | IllegalState(message: string)     // Kotlin's `error(...)`
    | IllegalArgument(message: string)  // a failed `require(...)`
    | NoSuchElement(message: string)    // `first { }` or `firstNotNullOf` finding nothing
}
