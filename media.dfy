/**
 * The JMF media formats the audio code exchanges: `javax.media.format.AudioFormat`
 * with the constants of `javax.media.Format` and `AudioFormat` that the model uses.
 * Sample rates are whole numbers of hertz rather than `double`s.
 */
module Media {

  /** `Format.NOT_SPECIFIED`. */
  const NOT_SPECIFIED: int := -1

  /** `AudioFormat.LINEAR`: uncompressed PCM. */
  const LINEAR: string := "LINEAR"

  /** `AudioFormat.LITTLE_ENDIAN` and `AudioFormat.SIGNED`. */
  const LITTLE_ENDIAN: int := 0
  const SIGNED: int := 1

  /** An audio format; any attribute may be `NOT_SPECIFIED`. */
  datatype AudioFormat = AudioFormat(
    encoding: string,
    sampleRate: int,
    sampleSizeInBits: int,
    channels: int,
    endian: int,
    signed: int)

  /** `new AudioFormat(LINEAR, sampleRate, sampleSizeInBits, channels)`: byte order and signedness unspecified. */
  function LinearFormat(sampleRate: int, sampleSizeInBits: int, channels: int): (f: AudioFormat)
    ensures f.encoding == LINEAR && f.endian == NOT_SPECIFIED && f.signed == NOT_SPECIFIED
    ensures f.sampleRate == sampleRate && f.sampleSizeInBits == sampleSizeInBits && f.channels == channels
  {
    AudioFormat(LINEAR, sampleRate, sampleSizeInBits, channels, NOT_SPECIFIED, NOT_SPECIFIED)
  }
}
