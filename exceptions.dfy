/** The Python exceptions that the modelled code raises or lets escape. A
    member that can raise returns `Result<T, Exception>`; the exception
    aborts the caller exactly where Python's would unless the caller
    catches it. */
module Exceptions {

  datatype Exception =
    | KeyError(key: string)                    // `d[k]` with `k` missing
    | TypeError(message: string)               // an operation on a value of the wrong type, e.g. iterating None
    | AttributeError(message: string)          // attribute access on None
    | AssertionError(message: string)          // a failed `assert`
    | ValueError(message: string)
    | ConnectionError(message: string)
    | DoesNotExist(message: string)            // `Model.objects.get` found no row
    | ValidationError(message: string)         // django.core.exceptions.ValidationError
}
