/** Result shapes shared by the platform model and both halves of the application. */
module Values {

  datatype Option<T> = None | Some(value: T)

  /** The outcome of a platform call that may throw: either it returns a value,
      or it raises an exception whose message is `message`. */
  datatype Call<T> = Returns(value: T) | Throws(message: string)

  /** How a React Native promise handed to native code is settled:
      `promise.resolve(value)` or `promise.reject(code, message)`. */
  datatype Response<T> = Resolved(value: T) | Rejected(code: string, message: string)
}
