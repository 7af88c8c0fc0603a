/** The records the player derives before calling into DirectMusic and
    DirectSound: the synth port parameters built from a port's capabilities,
    the flag tests on the port's queried capabilities, and the fixed PCM
    format of the primary buffer. */
module PortSetup {
  import opened Com
  import opened Devices

  /** The fields of DMUS_PORTPARAMS8 the player sets; the rest stay zero. */
  datatype PortParams = PortParams(
    validParams: bv32,
    voices: nat,
    channelGroups: nat,
    audioChannels: nat,
    sampleRate: nat,
    effectFlags: bv32,
    share: bool,
    features: bv32)

  /** Every parameter group the player fills in. */
  const AllParams: bv32 :=
    PORTPARAMS_VOICES | PORTPARAMS_CHANNELGROUPS | PORTPARAMS_AUDIOCHANNELS |
    PORTPARAMS_SAMPLERATE | PORTPARAMS_EFFECTS | PORTPARAMS_SHARE | PORTPARAMS_FEATURES

  /** The parameter part of CreateMusicPort. */
  function BuildPortParams(caps: PortCaps): (p: PortParams)
    ensures p.validParams == AllParams
    ensures p.voices == caps.maxVoices
    ensures p.channelGroups == caps.maxChannelGroups
    ensures p.audioChannels == caps.maxAudioChannels
    ensures p.effectFlags == caps.effectFlags
    ensures p.sampleRate == 44100 && p.share && p.features == PORT_FEATURE_AUDIOPATH
  {
    var valid: bv32 := 0;
    var valid := valid | PORTPARAMS_VOICES;
    var valid := valid | PORTPARAMS_CHANNELGROUPS;
    var valid := valid | PORTPARAMS_AUDIOCHANNELS;
    var valid := valid | PORTPARAMS_SAMPLERATE;
    var valid := valid | PORTPARAMS_EFFECTS;
    var valid := valid | PORTPARAMS_SHARE;
    var valid := valid | PORTPARAMS_FEATURES;
    PortParams(valid, caps.maxVoices, caps.maxChannelGroups, caps.maxAudioChannels,
               44100, caps.effectFlags, true, PORT_FEATURE_AUDIOPATH)
  }

  /** The valid-parameter mask announces exactly the seven groups that are
      filled in: each of their bits is set and no other bit is. */
  lemma ValidParamsExact(caps: PortCaps)
    ensures var v := BuildPortParams(caps).validParams;
      v & PORTPARAMS_VOICES != 0 && v & PORTPARAMS_CHANNELGROUPS != 0 &&
      v & PORTPARAMS_AUDIOCHANNELS != 0 && v & PORTPARAMS_SAMPLERATE != 0 &&
      v & PORTPARAMS_EFFECTS != 0 && v & PORTPARAMS_SHARE != 0 &&
      v & PORTPARAMS_FEATURES != 0 && v == 0xEF
  {
  }

  /** The parameters depend on the capability record only through the voice,
      channel-group, audio-channel and effect fields: neither the port GUID,
      nor its flags, nor its description influences them. */
  lemma ParamsIgnoreIdentity(a: PortCaps, b: PortCaps)
    requires a.maxVoices == b.maxVoices && a.maxChannelGroups == b.maxChannelGroups
    requires a.maxAudioChannels == b.maxAudioChannels && a.effectFlags == b.effectFlags
    ensures BuildPortParams(a) == BuildPortParams(b)
  {
  }

  /** The external-module test of CreateMusicPort. */
  predicate IsExternal(caps: PortCaps)
  {
    caps.flags & PC_EXTERNAL != 0
  }

  /** isExternalSynth after CreateMusicPort has seen `queried`: set when the
      queried capabilities carry DMUS_PC_EXTERNAL, never cleared. */
  function ExternalAfter(wasExternal: bool, queried: PortCaps): (b: bool)
    ensures b <==> wasExternal || queried.flags & PC_EXTERNAL != 0
    ensures wasExternal ==> b
  {
    if IsExternal(queried) then true else wasExternal
  }

  /** WAVEFORMATEX as the player fills it in. */
  datatype WaveFormat = WaveFormat(
    formatTag: int,
    channels: nat,
    samplesPerSec: nat,
    bitsPerSample: nat,
    blockAlign: nat,
    avgBytesPerSec: nat,
    cbSize: nat)

  /** A PCM format whose derived fields agree with the PCM rules: the block
      is one sample of every channel, and the byte rate is one block per
      sample period. */
  predicate ConsistentPcm(f: WaveFormat)
  {
    && f.formatTag == WAVE_FORMAT_PCM
    && f.bitsPerSample % 8 == 0
    && f.blockAlign == f.channels * (f.bitsPerSample / 8)
    && f.avgBytesPerSec == f.samplesPerSec * f.blockAlign
    && f.cbSize == 0
  }

  /** The primary-buffer format: the derived fields are computed from the
      base ones with the integer arithmetic of the source (WORD operands
      promoted to int, division truncating). */
  function PrimaryBufferFormat(): (f: WaveFormat)
    ensures ConsistentPcm(f)
    ensures f.channels == 2 && f.samplesPerSec == 44100 && f.bitsPerSample == 16
    ensures f.blockAlign == 4 && f.avgBytesPerSec == 176400
  {
    var channels := 2;
    var rate := 44100;
    var bits := 16;
    var blockAlign := channels * bits / 8;
    WaveFormat(WAVE_FORMAT_PCM, channels, rate, bits, blockAlign, rate * blockAlign, 0)
  }
}
