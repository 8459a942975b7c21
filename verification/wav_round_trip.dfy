/** The silent WAV file written for endpoint tests, read back by the local
    engine's decoder. */
module WavRoundTrip {
  import opened Results
  import opened Bytes
  import SilentWav
  import Parakeet

  /** Any file whose payload is all zero bytes decodes to zero samples. */
  lemma ZeroPayloadDecodesToSilence(data: seq<Byte>)
    requires |data| > 44 && (|data| - 44) % 2 == 0
    requires forall i :: 44 <= i < |data| ==> data[i] == 0
    ensures var r := Parakeet.ReadAudioSamples(Some(data));
            && r.Success?
            && |r.value| == (|data| - 44) / 2
            && forall i :: 0 <= i < |r.value| ==> r.value[i] == 0.0
  {
    var r := Parakeet.ReadAudioSamples(Some(data));
    forall i | 0 <= i < |r.value|
      ensures r.value[i] == 0.0
    {
      var lo, hi := data[44 + 2 * i], data[44 + 2 * i + 1];
      assert lo == 0 && hi == 0;
      assert r.value[i] == Parakeet.Sample(lo, hi);
    }
  }

  /** A silent file of at least one frame decodes to exactly that many
      samples, every one of them zero. */
  lemma SilentWavDecodesToSilence(sampleRate: int, frameCount: int)
    requires 0 <= sampleRate && 2 * sampleRate < UINT32_LIMIT
    requires 0 < frameCount && 36 + 2 * frameCount < UINT32_LIMIT
    ensures var r := Parakeet.ReadAudioSamples(Some(SilentWav.CreateSilentWavData(sampleRate, frameCount)));
            && r.Success?
            && |r.value| == frameCount
            && forall i :: 0 <= i < frameCount ==> r.value[i] == 0.0
  {
    var data := SilentWav.CreateSilentWavData(sampleRate, frameCount);
    assert |data| == 44 + 2 * frameCount;
    ZeroPayloadDecodesToSilence(data);
  }

  /** A silent file of zero frames is only a header, which the decoder rejects. */
  lemma EmptySilentWavIsRejected(sampleRate: int)
    requires 0 <= sampleRate && 2 * sampleRate < UINT32_LIMIT
    ensures Parakeet.ReadAudioSamples(Some(SilentWav.CreateSilentWavData(sampleRate, 0)))
            == Failure(Parakeet.InvalidAudioData)
  {
  }
}
