/** Swift's `Optional` and `Result`, as the view model uses them. */
module Wrappers {

  /** `T?` in Swift: `None` stands for `nil`. */
  datatype Option<+T> = None | Some(value: T)

  /** Swift's `Result<Success, Failure>`, the type the catalog fetch completes with. */
  datatype Result<+T, +E> = Success(value: T) | Failure(error: E)
}
