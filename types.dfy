/** Values shared by every part of the Nexus upload session: the artifact
    descriptions it registers, the HTTP requests it sends and the errors it
    reports. */
module Artifacts {

  /** One octet of an artifact file. */
  newtype byte = x: int | 0 <= x < 256

  /** An artifact to publish: Maven artifact id, optional classifier,
      packaging type (e.g. "pom", "jar") and the path of the local file. */
  datatype ArtifactDescription = ArtifactDescription(ID: string, Classifier: string, Type: string, File: string)

  /** Why a configuration or registration argument was refused. */
  datatype Invalid =
    | EmptyHost
    | UnsupportedNexusVersion(nexusVersion: string)
    | EmptyRepository
    | EmptyGroupID
    | EmptyArtifactsVersion
    | EmptyArtifactID
    | EmptyArtifactFile

  /** The configuration calls an upload needs first. */
  datatype ConfigStep = SetBaseURLStep | SetArtifactsVersionStep

  /** The error kinds of the upload session. */
  datatype Error =
    | ValidationError(reason: Invalid)
    | NotConfiguredError(missing: ConfigStep)
    | NoArtifactsError
    | ReadError(file: string)
    | UploadError(url: string)

  /** A value or the error that prevented it (Go's `(T, error)` pair). */
  datatype Result<T> = Success(value: T) | Failure(error: Error)

  /** Success or the error (Go's lone `error` result, nil meaning Pass). */
  datatype Outcome = Pass | Fail(error: Error)

  /** What a request carries: a hexadecimal checksum or the raw file bytes. */
  datatype Body = Checksum(hex: string) | Content(bytes: seq<byte>)

  /** A request as the transport records it. */
  datatype Request = Request(verb: string, url: string, body: Body)

  /** The only HTTP method the upload uses. */
  const MethodPut: string := "PUT"
}
