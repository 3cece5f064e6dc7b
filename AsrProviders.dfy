/** The speech-recognition providers' shared WAV encoding and their factory:
    `createWavBuffer` lays the canonical 44-byte RIFF/WAVE PCM header in
    front of the raw samples, and the factory picks a provider by name. */
module AsrProviders {
  import opened Common
  import opened Bytes

  /** The `options` argument; a field that is absent or 0 takes its default
      (JavaScript `||`). */
  datatype WavOptions = WavOptions(sampleRate: Option<int>, channels: Option<int>, bitsPerSample: Option<int>)

  datatype WavFormat = WavFormat(sampleRate: int, channels: int, bitsPerSample: int)

  function OrDefault(o: Option<int>, default: int): (r: int)
    ensures o.Some? && o.value != 0 ==> r == o.value
    ensures o.None? || o.value == 0 ==> r == default
  {
    if o.Some? && o.value != 0 then o.value else default
  }

  /** The format `createWavBuffer` writes: 16000 Hz, mono, 16 bits unless
      the options say otherwise. */
  function Resolve(options: WavOptions): WavFormat {
    WavFormat(OrDefault(options.sampleRate, 16000), OrDefault(options.channels, 1),
              OrDefault(options.bitsPerSample, 16))
  }

  /** `sampleRate * channels * bitsPerSample / 8`, as the whole number the
      32-bit write keeps. */
  function ByteRate(f: WavFormat): int {
    f.sampleRate * f.channels * f.bitsPerSample / 8
  }

  function BlockAlign(f: WavFormat): int {
    f.channels * f.bitsPerSample / 8
  }

  /** The format fields fit their unsigned widths. Node checks the value it
      is given, so the byte rate and block align are compared before any
      rounding: a quotient such as 65535.75 is above 0xffff and raises, even
      though its whole part would fit. */
  predicate FormatFits(f: WavFormat) {
    && 0 <= f.sampleRate < Two32
    && 0 <= f.channels < Two16
    && 0 <= f.bitsPerSample < Two16
    && 0 <= f.sampleRate * f.channels * f.bitsPerSample <= 8 * (Two32 - 1)
    && 0 <= f.channels * f.bitsPerSample <= 8 * (Two16 - 1)
  }

  /** What the check means for the two computed fields: the unrounded
      quotient lies in the field's range, and the value written, its whole
      part, then fits the field. */
  lemma FormatFitsQuotients(f: WavFormat)
    ensures FormatFits(f) <==>
      && 0 <= f.sampleRate < Two32 && 0 <= f.channels < Two16 && 0 <= f.bitsPerSample < Two16
      && 0.0 <= (f.sampleRate * f.channels * f.bitsPerSample) as real / 8.0 <= (Two32 - 1) as real
      && 0.0 <= (f.channels * f.bitsPerSample) as real / 8.0 <= (Two16 - 1) as real
    ensures FormatFits(f) ==> 0 <= ByteRate(f) < Two32 && 0 <= BlockAlign(f) < Two16
  {
  }

  /** A block align of 378 * 1387 / 8 = 65535.75 is refused, although its
      whole part 65535 would fit in 16 bits. */
  lemma FractionalBlockAlignRefused()
    ensures BlockAlign(WavFormat(1, 378, 1387)) == Two16 - 1
    ensures !FormatFits(WavFormat(1, 378, 1387))
  {
  }

  /** Every field fits its unsigned width, so no write raises RangeError. */
  predicate Fits(f: WavFormat, dataSize: nat) {
    36 + dataSize < Two32 && FormatFits(f)
  }

  /** The first 12 bytes: the RIFF chunk header and the WAVE tag. */
  function RiffPrefix(dataSize: nat): (r: seq<byte>)
    requires 36 + dataSize < Two32
    ensures |r| == 12
  {
    Ascii("RIFF") + LE32(36 + dataSize) + Ascii("WAVE")
  }

  /** The first 36 bytes: the above and the PCM format chunk. */
  function FormatPrefix(f: WavFormat, dataSize: nat): (r: seq<byte>)
    requires Fits(f, dataSize)
    ensures |r| == 36
  {
    RiffPrefix(dataSize)
    + Ascii("fmt ") + LE32(16) + LE16(1) + LE16(f.channels) + LE32(f.sampleRate)
    + LE32(ByteRate(f)) + LE16(BlockAlign(f)) + LE16(f.bitsPerSample)
  }

  /** The 44-byte header, field by field. */
  function WavHeader(f: WavFormat, dataSize: nat): (r: seq<byte>)
    requires Fits(f, dataSize)
    ensures |r| == 44
  {
    FormatPrefix(f, dataSize) + Ascii("data") + LE32(dataSize)
  }

  /** The header read back: the four tags at offsets 0, 8, 12 and 36, and
      every numeric field at its offset with the value written. */
  lemma WavHeaderFields(f: WavFormat, dataSize: nat)
    requires Fits(f, dataSize)
    ensures var h := WavHeader(f, dataSize);
      && h[0..4] == Ascii("RIFF") && h[8..12] == Ascii("WAVE")
      && h[12..16] == Ascii("fmt ") && h[36..40] == Ascii("data")
      && ReadUInt32LE(h, 4) == 36 + dataSize
      && ReadUInt32LE(h, 16) == 16
      && ReadUInt16LE(h, 20) == 1
      && ReadUInt16LE(h, 22) == f.channels
      && ReadUInt32LE(h, 24) == f.sampleRate
      && ReadUInt32LE(h, 28) == ByteRate(f)
      && ReadUInt16LE(h, 32) == BlockAlign(f)
      && ReadUInt16LE(h, 34) == f.bitsPerSample
      && ReadUInt32LE(h, 40) == dataSize
  {
    var h := WavHeader(f, dataSize);
    ReadAt(h, LE32(36 + dataSize), 4);
    ReadLE32(36 + dataSize);
    ReadAt(h, LE32(16), 16);
    ReadLE32(16);
    ReadAt(h, LE16(1), 20);
    ReadLE16(1);
    ReadAt(h, LE16(f.channels), 22);
    ReadLE16(f.channels);
    ReadAt(h, LE32(f.sampleRate), 24);
    ReadLE32(f.sampleRate);
    ReadAt(h, LE32(ByteRate(f)), 28);
    ReadLE32(ByteRate(f));
    ReadAt(h, LE16(BlockAlign(f)), 32);
    ReadLE16(BlockAlign(f));
    ReadAt(h, LE16(f.bitsPerSample), 34);
    ReadLE16(f.bitsPerSample);
    ReadAt(h, LE32(dataSize), 40);
    ReadLE32(dataSize);
  }

  /** The writes of the first 12 bytes. */
  method WriteRiff(header: array<byte>, dataSize: nat)
    requires header.Length == 44 && 36 + dataSize < Two32
    modifies header
    ensures header[..12] == RiffPrefix(dataSize)
  {
    Write(header, Ascii("RIFF"), 0);
    assert header[..4] == Ascii("RIFF");
    WriteUInt32LE(header, 36 + dataSize, 4);
    Write(header, Ascii("WAVE"), 8);
  }

  /** The writes of the format chunk, after the first 12 bytes. */
  method WriteFormat(header: array<byte>, f: WavFormat, dataSize: nat)
    requires header.Length == 44 && Fits(f, dataSize)
    requires header[..12] == RiffPrefix(dataSize)
    modifies header
    ensures header[..36] == FormatPrefix(f, dataSize)
  {
    Write(header, Ascii("fmt "), 12);
    WriteUInt32LE(header, 16, 16);
    WriteUInt16LE(header, 1, 20);
    WriteUInt16LE(header, f.channels, 22);
    WriteUInt32LE(header, f.sampleRate, 24);
    WriteUInt32LE(header, ByteRate(f), 28);
    WriteUInt16LE(header, BlockAlign(f), 32);
    WriteUInt16LE(header, f.bitsPerSample, 34);
  }

  /** The header writes of `createWavBuffer`, in place and in order; each
      write extends the prefix written so far. */
  method WriteHeader(header: array<byte>, f: WavFormat, dataSize: nat)
    requires header.Length == 44 && Fits(f, dataSize)
    modifies header
    ensures header[..] == WavHeader(f, dataSize)
  {
    WriteRiff(header, dataSize);
    WriteFormat(header, f, dataSize);
    Write(header, Ascii("data"), 36);
    WriteUInt32LE(header, dataSize, 40);
    assert header[..] == header[..44];
  }

  /** `createWavBuffer`: None where a header write would raise RangeError,
      otherwise the header followed by the samples unchanged. */
  method CreateWavBuffer(pcm: seq<byte>, options: WavOptions) returns (r: Option<seq<byte>>)
    ensures r.Some? <==> Fits(Resolve(options), |pcm|)
    ensures r.Some? ==> |r.value| == 44 + |pcm| && r.value[44..] == pcm
    ensures r.Some? ==> r.value[..44] == WavHeader(Resolve(options), |pcm|)
  {
    var f := Resolve(options);
    var dataSize := |pcm|;
    if !Fits(f, dataSize) {
      return None;
    }
    var header := new byte[44](_ => 0);
    WriteHeader(header, f, dataSize);
    r := Some(header[..] + pcm);
  }

  /** An `ASR_PROVIDERS` entry; `apiKey` names the key in the global
      configuration. */
  datatype ProviderConfig = ProviderConfig(apiUrl: string, model: string, apiKey: string)

  /** The providers configured for the live-audio server. */
  const Configured: map<string, ProviderConfig> := map[
    "openai" := ProviderConfig("https://api.openai.com/v1/audio/transcriptions", "whisper-1", "OPENAI_API_KEY"),
    "siliconflow" := ProviderConfig("https://api.siliconflow.cn/v1/audio/transcriptions",
                                    "FunAudioLLM/SenseVoiceSmall", "SILICONFLOW_API_KEY")]

  datatype Provider =
    | OpenAiAsr(config: ProviderConfig, apiKey: string)
    | SiliconflowAsr(config: ProviderConfig, apiKey: string)

  datatype Created = Created(provider: Provider) | Thrown(message: string)

  /** `ASRProviderFactory.createProvider`. */
  function CreateProvider(name: string, providers: map<string, ProviderConfig>, global: map<string, string>): (r: Created)
  {
    if name !in providers then Thrown("ASR provider " + name + " not found in configuration")
    else
      var c := providers[name];
      if c.apiKey !in global || global[c.apiKey] == "" then
        Thrown("API key " + c.apiKey + " not found in configuration")
      else if name == "openai" then Created(OpenAiAsr(c, global[c.apiKey]))
      else if name == "siliconflow" then Created(SiliconflowAsr(c, global[c.apiKey]))
      else Thrown("Unsupported ASR provider: " + name)
  }

  /** A provider is built exactly for a configured, supported name whose key
      is set, and carries that entry and key; each failure has its message. */
  lemma CreateProviderOutcomes(name: string, providers: map<string, ProviderConfig>, global: map<string, string>)
    ensures var r := CreateProvider(name, providers, global);
      && (r.Created? <==> name in providers && providers[name].apiKey in global
                          && global[providers[name].apiKey] != "" && name in {"openai", "siliconflow"})
      && (r.Created? ==> r.provider.config == providers[name] && r.provider.apiKey == global[providers[name].apiKey]
                         && (r.provider.OpenAiAsr? <==> name == "openai"))
      && (name !in providers ==> r == Thrown("ASR provider " + name + " not found in configuration"))
  {
  }
}
