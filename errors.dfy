/** The crate-wide error enum of src/error.rs. Foreign error values it wraps
    (reqwest, serde_json, std::io, chrono, ...) are kept as their messages;
    the request JSON that RailwayBody and RailwayFailure also carry is not
    modelled. */
module Errors {

  /** An HTTP status code as Rust's StatusCode::as_u16 returns it. */
  newtype u16 = x: int | 0 <= x < 0x1_0000

  datatype Error =
    | DateOutOfRange(date: string, offset: int)
    | DateTruncation
    | DotEnv(reason: string)
    | HMacInvalidLength
    | InvalidTimeDelta(secs: int, nanos: int)
    | Io(reason: string)
    | Json(reason: string)
    | JsonWithMetadata(reason: string, payload: string)
    | MissingEnvVar(name: string)
    | ParseFloatWithMetadata(reason: string, input: string)
    | ParseIntWithMetadata(reason: string, input: string)
    | Railway(messages: seq<string>)
    | RailwayBody(reason: string, url: string)
    | RailwayDataMissing(what: string)
    | RailwayFailure(reason: string, url: string)
    | RailwayStatusFailure(status: u16, body: string)
    | WebHookBody(reason: string, url: string)
    | WebHookFailure(reason: string, url: string)
    | WebHookStatusFailure(status: u16, body: string)
    | Workflow(message: string)
}
