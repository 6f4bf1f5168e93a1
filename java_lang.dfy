/** The Java exceptions the modelled Java code can throw, and the shape of a
    call that either returns or throws. */
module JavaLang {
  datatype Exception =
    | NullPointer
    | UnsupportedOperation(message: string)
    | ArrayIndexOutOfBounds(index: int, length: int)
    | KubernetesClient(message: string)

  datatype Outcome<+T> = Returned(value: T) | Thrown(exception: Exception)
}
