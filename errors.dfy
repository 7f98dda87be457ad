/** The errors the core throws, with the texts it throws them with. */
module Errors {

  datatype Error =
    /** Reading the current side before it was set (src/networker.ts:10). */
    | NotInitialized
    /** Setting the current side a second time (src/networker.ts:16). */
    | AlreadyDeclared
    /** No emit strategy is registered for the destination side name. */
    | NoEmitStrategy(from: string, to: string)
    /**
     * A response arrived for an id with no pending resolver, and the draft
     * handler called it anyway: the engine's `TypeError`, whose wording the
     * source does not fix.
     */
    | ResolverNotAFunction
    /** No transport delegate is registered for the pair of sides (src/message.ts:42). */
    | NotSupported(from: string, to: string)

  /** The message each error carries. */
  function Text(e: Error): string
  {
    match e
    case NotInitialized => "Logical side is not initialized yet."
    case AlreadyDeclared => "Logical side can be declared only once."
    case NoEmitStrategy(from, to) => "No emit strategy is registered from " + from + " to " + to
    case ResolverNotAFunction => "resolveValue is not a function" // the engine's wording
    case NotSupported(from, to) => "Transportation from " + from + " to " + to + " is not supported."
  }
}
