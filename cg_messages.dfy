/**
 * The messages the iterative non-Cartesian SENSE stage receives and emits:
 * an acquisition header paired with its sample array, and the image header
 * paired with the reconstructed pixels.
 */
module CgMessages {
  import opened Types

  type Position = (real, real, real)
  type Quaternion = (real, real, real, real)

  /** The fields of the acquisition header that the stage reads. */
  datatype AcquisitionHeader = AcquisitionHeader(
    numberOfSamples: uint16,
    activeChannels: uint16,
    slice: uint16,
    acquisitionTimeStamp: uint32,
    position: Position,
    quaternion: Quaternion,
    patientTablePosition: Position)

  /**
   * What the header message is continued by: normally the complex sample
   * array `[samples x channels]`, stored as interleaved real and imaginary
   * floats; anything else makes the downcast in the staging loop fail.
   */
  datatype Payload = Samples(data: seq<real>) | OtherPayload

  /** One acquisition profile as held by the sliding window. */
  datatype Profile = Profile(header: AcquisitionHeader, payload: Payload)

  /** The image header fields the stage fills in. */
  datatype ImageHeader = ImageHeader(
    matrixSize: (uint16, uint16, uint16),
    channels: uint16,
    slice: uint16,
    acquisitionTimeStamp: uint32,
    position: Position,
    quaternion: Quaternion,
    patientTablePosition: Position,
    imageIndex: uint16,
    imageSeriesIndex: uint16)

  /** A reconstructed image: its header and `matrix_size[0] * matrix_size[1]` complex pixels. */
  datatype Image = Image(header: ImageHeader, pixels: seq<Complex>)

  /** What the stage puts on the downstream queue. */
  datatype OutMessage = ForwardedProfile(profile: Profile) | EmittedImage(image: Image)
}
