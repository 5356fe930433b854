/** The boundary to the barcode library and the image writer, which this
    model does not look inside. */
module Encoder {
  /** The library's error-correction levels ERROR_CORRECT_L, _M, _Q and _H. */
  datatype Level = L | M | Q | H

  /** The arguments handed to `qrcode.QRCode`: the starting symbol version
      (grown to fit), the error-correction level, the pixel size of one
      module and the border width in modules. */
  datatype EncodeOptions = EncodeOptions(version: nat, level: Level, boxSize: int, border: int)

  /** Whether encoding `data` with the given options, creating the output
      directory and writing the image to the given path all succeed.
      The answer comes from the library and the file system, so the model
      takes it as an input. */
  type Backend = (string, EncodeOptions, string) -> bool
}
