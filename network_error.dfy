/** The failures the catalog source reports (Service/NetworkManager.swift).
    The transport itself is not part of this model. */
module Network {

  /** Swift's `NetworkError`. The two cases that wrap a Foundation `Error`
      keep only that error's `localizedDescription`, an opaque string. */
  datatype NetworkError =
    | InvalidURL
    | NetworkFailure(description: string)
    | ServerError(statusCode: int)
    | NoData
    | InvalidResponse
    | DecodingError(description: string)
}
