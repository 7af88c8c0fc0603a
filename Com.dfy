/** Result codes and flag constants of the COM, DirectSound and DirectMusic
    interfaces that the player consumes. Values are those of the platform
    headers (winerror.h, dmusicc.h, dmusici.h, dsound.h, mmreg.h). */
module Com {

  datatype Option<+T> = None | Some(value: T)

  /** An HRESULT: a signed 32-bit code whose sign bit marks failure. */
  type HResult = int

  const S_OK: HResult := 0
  const S_FALSE: HResult := 1
  /** 0x80004005 read as a signed 32-bit integer. */
  const E_FAIL: HResult := -2147467259

  /** The FAILED() macro. */
  predicate Failed(hr: HResult) { hr < 0 }

  // DMUS_PORTPARAMS8.dwValidParams bits
  const PORTPARAMS_VOICES: bv32 := 0x0000_0001
  const PORTPARAMS_CHANNELGROUPS: bv32 := 0x0000_0002
  const PORTPARAMS_AUDIOCHANNELS: bv32 := 0x0000_0004
  const PORTPARAMS_SAMPLERATE: bv32 := 0x0000_0008
  const PORTPARAMS_EFFECTS: bv32 := 0x0000_0020
  const PORTPARAMS_SHARE: bv32 := 0x0000_0040
  const PORTPARAMS_FEATURES: bv32 := 0x0000_0080

  // DMUS_PORTPARAMS8.dwFeatures
  const PORT_FEATURE_AUDIOPATH: bv32 := 0x0000_0001

  // DMUS_PORTCAPS.dwFlags bits
  const PC_DLS: bv32 := 0x0000_0001
  const PC_EXTERNAL: bv32 := 0x0000_0002
  const PC_SOFTWARESYNTH: bv32 := 0x0000_0004
  const PC_AUDIOPATH: bv32 := 0x0000_0400

  /** DMUS_APATH_SHARED_STEREOPLUSREVERB */
  const APATH_SHARED_STEREOPLUSREVERB: int := 1
  /** DMUS_SEGF_AFTERPREPARETIME */
  const SEGF_AFTERPREPARETIME: bv32 := 0x0000_0400
  /** DSSCL_PRIORITY */
  const DSSCL_PRIORITY: int := 2

  // DSBUFFERDESC.dwFlags bits
  const DSBCAPS_PRIMARYBUFFER: bv32 := 0x0000_0001
  const DSBCAPS_CTRLPAN: bv32 := 0x0000_0040
  const DSBCAPS_CTRLVOLUME: bv32 := 0x0000_0080

  /** WAVE_FORMAT_PCM */
  const WAVE_FORMAT_PCM: int := 1
}
