/** The crate-wide error type of crates/core/src/error.rs. */
module Errors {
  import opened Wrappers

  datatype Error =
    | InvalidLength
    | CrcMismatch
    | UnknownMessageType(code: byte)
    | CryptoError
    | BluetoothError(message: string)
    | UnsupportedDevice
    | VersionMismatch
    | InvalidState
    | DeviceNotConnected
    | PermissionDenied
    | Timeout
    | ParseError(message: string)
    | ConfigError(message: string)
    | IoError(message: string)

  /** `crate::error::Result<T>`. */
  datatype Result<T> = Ok(value: T) | Err(error: Error)
}
