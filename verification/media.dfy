/** The media descriptor handed to the caller and the picker's props
    (types/media.ts). */
module Media {
  import opened Optional

  /** A selected medium. `kind` is the `type` field: "video" or "image".
      Durations are milliseconds, sizes bytes. */
  datatype MediaAsset = MediaAsset(
    uri: string,
    kind: string,
    duration: Option<nat>,
    width: Option<nat>,
    height: Option<nat>,
    fileName: Option<string>,
    fileSize: Option<nat>
  )

  /** The optional props of the picker; `None` is an omitted prop. The
      `onMediaSelected` callback is not a value here: its invocations are
      recorded in the press trace. `maxDuration` is in seconds and
      `maxFileSize` in megabytes. */
  datatype PickerProps = PickerProps(
    mediaType: Option<string>,
    maxDuration: Option<nat>,
    maxFileSize: Option<nat>
  )
}
