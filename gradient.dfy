/**
 * The gradient sketch: the wave layers handed to the noise-gradient shader,
 * the byte colour ramp of the plain gradient, and the frame counter.
 */
module Gradient {

  /** An RGB colour, one integer per channel. */
  type Color = seq<int>

  const ColorA: Color := [49, 63, 155]
  const ColorB: Color := [134, 218, 213]
  const ColorC: Color := [168, 231, 148]
  const ColorD: Color := [226, 87, 112]
  const ColorE: Color := [254, 232, 103]

  /** The colours of the noise gradient, one per wave layer. */
  const NoiseColors: seq<Color> := [ColorA, ColorB, ColorC, ColorB]
  /** The colours of the plain colour ramp. */
  const RampColors: seq<Color> := [ColorA, ColorB, ColorC, ColorD, ColorE]

  datatype WaveLayer = WaveLayer(
    color: Color,
    noiseFreq: seq<real>,
    noiseSpeed: real,
    noiseFlow: real,
    noiseSeed: real,
    noiseFloor: real,
    noiseCeil: real)

  /** The layer built for colour `c` at position `i` of `n` colours. */
  function Layer(c: Color, i: nat, n: nat): WaveLayer
    requires n > 0
  {
    var t := i as real / n as real;
    WaveLayer(c, [t * 0.5, 1.5 * t], 11.0 + 0.3 * i as real, 0.3 * i as real,
              10.0 * i as real, 0.1, 0.83 + 0.07 * i as real)
  }

  /** One wave layer per colour, in order, with parameters growing with the position. */
  function WaveLayers(colors: seq<Color>): (r: seq<WaveLayer>)
    ensures |r| == |colors|
    ensures forall i :: 0 <= i < |r| ==>
      && r[i].color == colors[i]
      && r[i].noiseFreq == [(i as real / |colors| as real) * 0.5, 1.5 * (i as real / |colors| as real)]
      && r[i].noiseSpeed == 11.0 + 0.3 * i as real
      && r[i].noiseFlow == 0.3 * i as real
      && r[i].noiseSeed == 10.0 * i as real
      && r[i].noiseFloor == 0.1
      && r[i].noiseCeil == 0.83 + 0.07 * i as real
  {
    seq(|colors|, i requires 0 <= i < |colors| => Layer(colors[i], i, |colors|))
  }

  /**
   * For the sketch's four colours the frequencies stay below (0.5, 1.5), the
   * ceilings rise from 0.83 to 1.04 above a floor of 0.1, and the seeds are
   * 0, 10, 20 and 30.
   */
  lemma SketchWaveLayers()
    ensures var layers := WaveLayers(NoiseColors);
      && |layers| == 4
      && layers[3].color == ColorB
      && (forall i :: 0 <= i < 4 ==>
            0.0 <= layers[i].noiseFreq[0] < 0.5 && 0.0 <= layers[i].noiseFreq[1] < 1.5 &&
            layers[i].noiseFloor < layers[i].noiseCeil <= 1.04)
      && (forall i, j :: 0 <= i < j < 4 ==> layers[i].noiseCeil < layers[j].noiseCeil)
      && layers[3].noiseSeed == 30.0
  {
    var layers := WaveLayers(NoiseColors);
    forall i | 0 <= i < 4
      ensures 0.0 <= layers[i].noiseFreq[0] < 0.5 && 0.0 <= layers[i].noiseFreq[1] < 1.5
    {
      assert layers[i].noiseFreq[0] == (i as real / 4.0) * 0.5;
    }
  }

  /** The `reduce` of the colour ramp: the channels of every colour, left to right. */
  function Flatten(colors: seq<Color>): seq<int>
  {
    if |colors| == 0 then [] else Flatten(colors[..|colors| - 1]) + colors[|colors| - 1]
  }

  /** For RGB colours, byte 3k + c of the ramp is channel c of colour k. */
  lemma {:induction false} FlattenAt(colors: seq<Color>)
    requires forall k :: 0 <= k < |colors| ==> |colors[k]| == 3
    ensures |Flatten(colors)| == 3 * |colors|
    ensures forall k, c :: 0 <= k < |colors| && 0 <= c < 3 ==> Flatten(colors)[3 * k + c] == colors[k][c]
  {
    if |colors| > 0 {
      var init := colors[..|colors| - 1];
      FlattenAt(init);
      forall k, c | 0 <= k < |colors| && 0 <= c < 3
        ensures Flatten(colors)[3 * k + c] == colors[k][c]
      {
        if k < |colors| - 1 {
          assert colors[k] == init[k];
        }
      }
    }
  }

  /** The `Uint8Array` conversion of a number: modulo 256. */
  function ToUint8(v: int): (b: int)
    ensures 0 <= b < 256
    ensures 0 <= v < 256 ==> b == v
  {
    v % 256
  }

  function ToUint8Array(s: seq<int>): (r: seq<int>)
    ensures |r| == |s| && forall i :: 0 <= i < |s| ==> r[i] == ToUint8(s[i])
  {
    seq(|s|, i requires 0 <= i < |s| => ToUint8(s[i]))
  }

  /**
   * The ramp texture data of `initGradientBackground`: 15 bytes, byte 3k + c
   * being channel c of ramp colour k, every byte already in 0..255.
   */
  function ColorRampData(): (r: seq<int>)
    ensures |r| == 3 * |RampColors|
    ensures forall k, c :: 0 <= k < |RampColors| && 0 <= c < 3 ==> r[3 * k + c] == RampColors[k][c]
  {
    RampBytes();
    ToUint8Array(Flatten(RampColors))
  }

  /** Every channel of the flattened ramp is already a byte. */
  lemma RampBytes()
    ensures |Flatten(RampColors)| == 3 * |RampColors|
    ensures forall k, c :: 0 <= k < |RampColors| && 0 <= c < 3 ==> Flatten(RampColors)[3 * k + c] == RampColors[k][c]
    ensures forall i :: 0 <= i < |Flatten(RampColors)| ==> 0 <= Flatten(RampColors)[i] < 256
  {
    FlattenAt(RampColors);
    forall i | 0 <= i < |Flatten(RampColors)| ensures 0 <= Flatten(RampColors)[i] < 256 {
      var k, c := i / 3, i % 3;
      assert 3 * k + c == i && 0 <= k < |RampColors| && 0 <= c < 3;
      assert 0 <= RampColors[k][c] < 256;
    }
  }

  class Gradient1Sketch {
    var time: real
    var isDestroyed: bool
    var waveLayers: seq<WaveLayer>

    /** `init` with `initGradientNoiseBackground`. */
    constructor ()
      ensures time == 1.0 && !isDestroyed && waveLayers == WaveLayers(NoiseColors)
    {
      time, isDestroyed := 1.0, false;
      waveLayers := WaveLayers(NoiseColors);
    }

    /** One frame, or nothing at all once the sketch is destroyed. */
    method Animate()
      modifies this`time
      ensures old(isDestroyed) ==> time == old(time)
      ensures !isDestroyed ==> time == old(time) + 0.05
    {
      if isDestroyed { return; }
      Render();
    }

    method Render()
      modifies this`time
      ensures time == old(time) + 0.05
    {
      time := time + 0.05;
    }

    method Destroy()
      modifies this`isDestroyed
      ensures isDestroyed
    {
      isDestroyed := true;
    }
  }
}
