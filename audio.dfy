/**
 * Audio feature extraction (audio_processor.cpp).
 *
 * The extractor cuts a signal into overlapping frames and computes one row of
 * features per frame: 13 mel-frequency cepstral coefficients, then the RMS
 * energy, the zero-crossing rate, the spectral centroid and an
 * autocorrelation pitch estimate. The C entry point flattens the rows into
 * one buffer.
 *
 * The transcendental functions (cos, sin, sqrt, log, log10 and 10^x) are
 * the parameter Maths, together with the value a 0/0 of the source yields;
 * the predicate Sound lists the few facts about them the proofs use. Every loop of the source is a method here, proved against
 * a specification function of its inputs; the lemmas then state what the
 * discrete parts compute: framing, zero crossings, the pitch lag search, the
 * triangular filters, truncation of the coefficients and the row layout.
 */
module Audio {
  import Layout

  /** The constant PI of the source. */
  const PI: real := 3.14159265358979323846

  /** The number of mel filters, hence of cepstral coefficients computed. */
  const Filters: int := 26

  /** The number of cepstral coefficients in a feature row. */
  const Coefficients: int := 13

  /** 13 coefficients, then energy, zero-crossing rate, centroid and pitch. */
  const RowLength: int := 17

  /** The floor 1e-10 below which a filter energy is clamped before its logarithm. */
  const EnergyFloor: real := 0.0000000001

  /**
   * The transcendental functions of <cmath>, left uninterpreted, and `nan`,
   * an unknown value standing for the NaN that the window of a one-sample
   * frame computes; no result of the model depends on it.
   */
  datatype Maths = Maths(cos: real -> real, sin: real -> real, sqrt: real -> real,
                         ln: real -> real, log10: real -> real, pow10: real -> real, nan: real)

  /**
   * What the proofs rely on: sqrt(0) = 0 and sqrt is never negative,
   * log10(1) = 0 and log10 is non-negative from 1 on, and 10^x is at least 1
   * and non-decreasing from 0 on.
   */
  ghost predicate Sound(m: Maths)
  {
    m.sqrt(0.0) == 0.0 &&
    (forall x :: 0.0 <= x ==> 0.0 <= m.sqrt(x)) &&
    m.log10(1.0) == 0.0 &&
    (forall x :: 1.0 <= x ==> 0.0 <= m.log10(x)) &&
    (forall x :: 0.0 <= x ==> 1.0 <= m.pow10(x)) &&
    (forall x, y :: 0.0 <= x <= y ==> m.pow10(x) <= m.pow10(y))
  }

  /** static_cast<int> of a double: rounds toward zero. */
  function Trunc(r: real): (i: int)
    ensures 0.0 <= r ==> 0 <= i && i as real <= r < i as real + 1.0
    ensures r < 0.0 ==> i <= 0 && i as real - 1.0 < r <= i as real
  {
    if r >= 0.0 then r.Floor else -((-r).Floor)
  }

  /** Truncation keeps the order of non-negative values. */
  lemma TruncMonotone(x: real, y: real)
    requires 0.0 <= x <= y
    ensures Trunc(x) <= Trunc(y)
  {
    assert Trunc(x) as real <= x <= y < Trunc(y) as real + 1.0;
  }

  function MaxReal(a: real, b: real): real
  {
    if a >= b then a else b
  }

  // ---------------------------------------------------------------------
  // Window, transforms and spectrum
  // ---------------------------------------------------------------------

  /** Element i of a Hamming window of the given size; a window of one element divides 0 by 0. */
  function HammingAt(size: int, i: int, m: Maths): real
    requires size >= 1
  {
    if size == 1 then m.nan
    else 0.54 - 0.46 * m.cos(2.0 * PI * i as real / (size - 1) as real)
  }

  /** The Hamming window of the given size. */
  function HammingOf(size: nat, m: Maths): (w: seq<real>)
    ensures |w| == size
  {
    seq(size, i requires 0 <= i < size => HammingAt(size, i, m))
  }

  method HammingWindow(size: int, m: Maths) returns (window: seq<real>)
    requires 0 <= size
    ensures window == HammingOf(size, m)
  {
    window := seq(size, _ => 0.0);
    var i := 0;
    while i < size
      invariant 0 <= i <= size && |window| == size
      invariant forall k :: 0 <= k < i ==> window[k] == HammingAt(size, k, m)
    {
      // with one element, the division is 0 / 0
      window := window[i := if size == 1 then m.nan else 0.54 - 0.46 * m.cos(2.0 * PI * i as real / (size - 1) as real)];
      i := i + 1;
    }
  }

  /** The frame multiplied element by element with its Hamming window. */
  function Windowed(frame: seq<real>, m: Maths): (w: seq<real>)
    ensures |w| == |frame|
  {
    seq(|frame|, i requires 0 <= i < |frame| => frame[i] * HammingOf(|frame|, m)[i])
  }

  datatype Complex = Complex(re: real, im: real)

  /** The angle -2 PI k j / n of DFT term j of bin k. */
  function Angle(n: int, k: int, j: int): real
    requires n > 0
  {
    -2.0 * PI * k as real * j as real / n as real
  }

  /** The first `count` terms of bin k of the DFT: the sum of x[j] (cos a, sin a). */
  function DftSum(x: seq<real>, k: int, count: nat, m: Maths): Complex
    requires count <= |x|
  {
    if count == 0 then Complex(0.0, 0.0)
    else
      var s := DftSum(x, k, count - 1, m);
      var a := Angle(|x|, k, count - 1);
      Complex(s.re + x[count - 1] * m.cos(a), s.im + x[count - 1] * m.sin(a))
  }

  /** The discrete Fourier transform, one bin per input sample. */
  function DftOf(x: seq<real>, m: Maths): (c: seq<Complex>)
    ensures |c| == |x|
  {
    seq(|x|, k requires 0 <= k < |x| => DftSum(x, k, |x|, m))
  }

  /** fft: the quadratic DFT loop of the source. */
  method Dft(input: seq<real>, m: Maths) returns (output: seq<Complex>)
    ensures output == DftOf(input, m)
  {
    var n := |input|;
    output := seq(n, _ => Complex(0.0, 0.0));
    var k := 0;
    while k < n
      invariant 0 <= k <= n && |output| == n
      invariant forall b :: 0 <= b < k ==> output[b] == DftSum(input, b, n, m)
    {
      var sum := Complex(0.0, 0.0);
      var j := 0;
      while j < n
        invariant 0 <= j <= n
        invariant sum == DftSum(input, k, j, m)
      {
        var angle := -2.0 * PI * k as real * j as real / n as real;
        assert angle == Angle(|input|, k, (j + 1) - 1);
        sum := Complex(sum.re + input[j] * m.cos(angle), sum.im + input[j] * m.sin(angle));
        j := j + 1;
      }
      output := output[k := sum];
      k := k + 1;
    }
  }

  /** std::abs of a complex number: the square root of its squared modulus, never negative. */
  function Abs(z: Complex, m: Maths): (r: real)
    ensures Sound(m) ==> 0.0 <= r
  {
    m.sqrt(z.re * z.re + z.im * z.im)
  }

  /** The magnitude spectrum keeps the lower half of the bins, rounded down. */
  function MagnitudesOf(c: seq<Complex>, m: Maths): (mag: seq<real>)
    ensures |mag| == |c| / 2
    ensures Sound(m) ==> forall i :: 0 <= i < |mag| ==> 0.0 <= mag[i]
  {
    seq(|c| / 2, i requires 0 <= i < |c| / 2 => Abs(c[i], m))
  }

  /** getMagnitudeSpectrum. */
  method MagnitudeSpectrum(fftResult: seq<Complex>, m: Maths) returns (magnitude: seq<real>)
    ensures |magnitude| == |fftResult| / 2
    ensures magnitude == MagnitudesOf(fftResult, m)
  {
    var half := |fftResult| / 2;
    magnitude := seq(half, _ => 0.0);
    var i := 0;
    while i < half
      invariant 0 <= i <= half && |magnitude| == half
      invariant forall k :: 0 <= k < i ==> magnitude[k] == Abs(fftResult[k], m)
    {
      magnitude := magnitude[i := Abs(fftResult[i], m)];
      i := i + 1;
    }
  }

  /** The angle PI k (j + 1/2) / n of DCT term j of coefficient k. */
  function CosineAngle(n: int, k: int, j: int): real
    requires n > 0
  {
    PI * k as real * (j as real + 0.5) / n as real
  }

  /** The first `count` terms of coefficient k of the DCT-II: the sum of x[j] cos(PI k (j + 1/2) / n). */
  function DctSum(x: seq<real>, k: int, count: nat, m: Maths): real
    requires count <= |x|
  {
    if count == 0 then 0.0
    else DctSum(x, k, count - 1, m) + x[count - 1] * m.cos(CosineAngle(|x|, k, count - 1))
  }

  function DctOf(x: seq<real>, m: Maths): (c: seq<real>)
    ensures |c| == |x|
  {
    seq(|x|, k requires 0 <= k < |x| => DctSum(x, k, |x|, m))
  }

  /** dct: the quadratic DCT loop of the source. */
  method Dct(input: seq<real>, m: Maths) returns (output: seq<real>)
    ensures output == DctOf(input, m)
  {
    var n := |input|;
    output := seq(n, _ => 0.0);
    var k := 0;
    while k < n
      invariant 0 <= k <= n && |output| == n
      invariant forall b :: 0 <= b < k ==> output[b] == DctSum(input, b, n, m)
    {
      var sum := 0.0;
      var j := 0;
      while j < n
        invariant 0 <= j <= n
        invariant sum == DctSum(input, k, j, m)
      {
        assert PI * k as real * (j as real + 0.5) / n as real == CosineAngle(|input|, k, (j + 1) - 1);
        sum := sum + input[j] * m.cos(PI * k as real * (j as real + 0.5) / n as real);
        j := j + 1;
      }
      output := output[k := sum];
      k := k + 1;
    }
  }

  // ---------------------------------------------------------------------
  // Mel scale and triangular filter bank
  // ---------------------------------------------------------------------

  /** hzToMel: 0 Hz is 0 mel, and no frequency from 0 Hz up has negative pitch in mel. */
  function HzToMel(hz: real, m: Maths): (mel: real)
    ensures Sound(m) && hz == 0.0 ==> mel == 0.0
    ensures Sound(m) && 0.0 <= hz ==> 0.0 <= mel
  {
    2595.0 * m.log10(1.0 + hz / 700.0)
  }

  /** melToHz: every mel value from 0 up names a frequency from 0 Hz up. */
  function MelToHz(mel: real, m: Maths): (hz: real)
    ensures Sound(m) && 0.0 <= mel ==> 0.0 <= hz
  {
    700.0 * (m.pow10(mel / 2595.0) - 1.0)
  }

  /** melToHz keeps the order of mel values from 0 up. */
  lemma MelToHzMonotone(x: real, y: real, m: Maths)
    requires Sound(m) && 0.0 <= x <= y
    ensures MelToHz(x, m) <= MelToHz(y, m)
  {
    assert 0.0 <= x / 2595.0 <= y / 2595.0;
  }

  /** Point i of the filters + 2 points spread evenly on the mel scale from 0 Hz to the Nyquist frequency. */
  function MelPoint(i: int, filters: nat, sampleRate: real, m: Maths): real
  {
    var melMin := HzToMel(0.0, m);
    var melMax := HzToMel(sampleRate / 2.0, m);
    melMin + (melMax - melMin) * i as real / (filters + 1) as real
  }

  /** A frequency as a fractional FFT bin: times nFFT over the sample rate. */
  function Scaled(hz: real, nFFT: int, sampleRate: real): real
    requires sampleRate != 0.0
  {
    hz * nFFT as real / sampleRate
  }

  /** Scaling keeps non-negative frequencies non-negative and in order. */
  lemma ScaledMonotone(a: real, b: real, nFFT: int, sampleRate: real)
    requires 0.0 <= a <= b && 0 <= nFFT && 0.0 < sampleRate
    ensures 0.0 <= Scaled(a, nFFT, sampleRate) <= Scaled(b, nFFT, sampleRate)
  {
    assert 0.0 <= a * nFFT as real <= b * nFFT as real;
  }

  /** The FFT bin holding a frequency: its scaled value truncated toward zero. */
  function FrequencyBin(hz: real, nFFT: int, sampleRate: real): int
    requires sampleRate != 0.0
  {
    Trunc(Scaled(hz, nFFT, sampleRate))
  }

  /** Frequencies from 0 Hz up fall in non-negative bins, in the same order. */
  lemma FrequencyBinMonotone(a: real, b: real, nFFT: int, sampleRate: real)
    requires 0.0 <= a <= b && 0 <= nFFT && 0.0 < sampleRate
    ensures 0 <= FrequencyBin(a, nFFT, sampleRate) <= FrequencyBin(b, nFFT, sampleRate)
  {
    ScaledMonotone(a, b, nFFT, sampleRate);
    TruncMonotone(Scaled(a, nFFT, sampleRate), Scaled(b, nFFT, sampleRate));
  }

  /** The FFT bin of mel point i. */
  function BinPoint(i: int, filters: nat, nFFT: int, sampleRate: real, m: Maths): int
    requires sampleRate != 0.0
  {
    FrequencyBin(MelToHz(MelPoint(i, filters, sampleRate, m), m), nFFT, sampleRate)
  }

  /** The filters + 2 bin points of createMelFilterBank. */
  function MelBins(filters: nat, nFFT: int, sampleRate: real, m: Maths): (bins: seq<int>)
    requires sampleRate != 0.0
    ensures |bins| == filters + 2
  {
    seq(filters + 2, i requires 0 <= i < filters + 2 => BinPoint(i, filters, nFFT, sampleRate, m))
  }

  /** Scaling by a non-negative factor over a positive divisor keeps non-negative values in order. */
  lemma ScaleMonotone(a: real, b: real, n: real, s: real)
    requires 0.0 <= a <= b && 0.0 <= n && 0.0 < s
    ensures 0.0 <= a * n / s <= b * n / s
  {
    assert 0.0 <= a * n <= b * n;
  }

  /** Mel point i is its share i / (filters + 1) of the Nyquist frequency in mel, since 0 Hz is 0 mel. */
  lemma MelPointsAscend(i: int, j: int, filters: nat, sampleRate: real, m: Maths)
    requires Sound(m) && 0.0 <= sampleRate && 0 <= i <= j
    ensures 0.0 <= MelPoint(i, filters, sampleRate, m) <= MelPoint(j, filters, sampleRate, m)
  {
    var melMax := HzToMel(sampleRate / 2.0, m);
    assert HzToMel(0.0, m) == 0.0 && 0.0 <= melMax;
    ScaleMonotone(i as real, j as real, melMax, (filters + 1) as real);
    assert melMax * i as real / (filters + 1) as real == i as real * melMax / (filters + 1) as real;
    assert melMax * j as real / (filters + 1) as real == j as real * melMax / (filters + 1) as real;
  }

  /** The mel points start at 0 and climb, so their bins are non-negative and non-decreasing. */
  lemma BinPointsAscend(i: int, j: int, filters: nat, nFFT: int, sampleRate: real, m: Maths)
    requires Sound(m) && 0 <= nFFT && 0.0 < sampleRate && 0 <= i <= j
    ensures 0 <= BinPoint(i, filters, nFFT, sampleRate, m) <= BinPoint(j, filters, nFFT, sampleRate, m)
  {
    MelPointsAscend(i, j, filters, sampleRate, m);
    var mi := MelPoint(i, filters, sampleRate, m);
    var mj := MelPoint(j, filters, sampleRate, m);
    MelToHzMonotone(mi, mj, m);
    FrequencyBinMonotone(MelToHz(mi, m), MelToHz(mj, m), nFFT, sampleRate);
  }

  /** All the bin points of createMelFilterBank are non-negative and non-decreasing. */
  lemma MelBinsAscend(filters: nat, nFFT: int, sampleRate: real, m: Maths)
    requires Sound(m) && 0 <= nFFT && 0.0 < sampleRate
    ensures forall i :: 0 <= i < filters + 2 ==> 0 <= MelBins(filters, nFFT, sampleRate, m)[i]
    ensures forall i, j :: 0 <= i <= j < filters + 2 ==>
      MelBins(filters, nFFT, sampleRate, m)[i] <= MelBins(filters, nFFT, sampleRate, m)[j]
  {
    forall i, j | 0 <= i <= j < filters + 2
      ensures 0 <= MelBins(filters, nFFT, sampleRate, m)[i] <= MelBins(filters, nFFT, sampleRate, m)[j]
    {
      BinPointsAscend(i, j, filters, nFFT, sampleRate, m);
    }
    forall i | 0 <= i < filters + 2
      ensures 0 <= MelBins(filters, nFFT, sampleRate, m)[i]
    {
      BinPointsAscend(i, i, filters, nFFT, sampleRate, m);
    }
  }

  /**
   * Column c of the triangular filter around bin point i: the rising edge
   * over [bins[i-1], bins[i]) and the falling edge over [bins[i], bins[i+1]).
   * The two ranges are disjoint, so the order in which the source writes
   * them does not matter.
   */
  function Weight(bins: seq<int>, i: int, c: int): (w: real)
    requires 1 <= i < |bins| - 1
    ensures 0.0 <= w <= 1.0
  {
    if bins[i] <= c < bins[i + 1] then (bins[i + 1] - c) as real / (bins[i + 1] - bins[i]) as real
    else if bins[i - 1] <= c < bins[i] then (c - bins[i - 1]) as real / (bins[i] - bins[i - 1]) as real
    else 0.0
  }

  /** Filter i - 1 of the bank: the weights of bin point i over the first `width` columns. */
  function FilterRow(bins: seq<int>, i: int, width: nat): (row: seq<real>)
    requires 1 <= i < |bins| - 1
    ensures |row| == width
  {
    seq(width, c requires 0 <= c < width => Weight(bins, i, c))
  }

  /** One triangular filter per inner bin point, each `width` columns wide. */
  function FilterBank(bins: seq<int>, filters: nat, width: nat): (bank: seq<seq<real>>)
    requires |bins| == filters + 2
    ensures |bank| == filters && forall r :: 0 <= r < filters ==> |bank[r]| == width
  {
    seq(filters, r requires 0 <= r < filters => FilterRow(bins, r + 1, width))
  }

  /** The filter bank of createMelFilterBank, nFFT / 2 columns wide. */
  function MelBank(filters: nat, nFFT: nat, sampleRate: real, m: Maths): (bank: seq<seq<real>>)
    requires sampleRate != 0.0
    ensures |bank| == filters && forall r :: 0 <= r < filters ==> |bank[r]| == nFFT / 2
  {
    FilterBank(MelBins(filters, nFFT, sampleRate, m), filters, nFFT / 2)
  }

  /** With ascending bin points a filter is zero outside [bins[i-1], bins[i+1]) and 1 at its peak bins[i]. */
  lemma FilterSupport(bins: seq<int>, i: int, c: int)
    requires 1 <= i < |bins| - 1 && bins[i - 1] <= bins[i] <= bins[i + 1]
    ensures Weight(bins, i, c) != 0.0 ==> bins[i - 1] <= c < bins[i + 1]
    ensures bins[i] < bins[i + 1] ==> Weight(bins, i, bins[i]) == 1.0
  {
  }

  /** Where the falling edge of one filter meets the rising edge of the next, the two weights add up to 1. */
  lemma AdjacentFiltersSumToOne(bins: seq<int>, i: int, c: int)
    requires 1 <= i && i + 2 < |bins| && bins[i] <= c < bins[i + 1]
    ensures Weight(bins, i, c) + Weight(bins, i + 1, c) == 1.0
  {
    var d := (bins[i + 1] - bins[i]) as real;
    assert (bins[i + 1] - c) as real / d + (c - bins[i]) as real / d == ((bins[i + 1] - c) + (c - bins[i])) as real / d;
  }

  /** The bank of createMelFilterBank has one filter per inner mel point, each zero outside the bins of its two neighbours. */
  lemma MelBankShape(filters: nat, nFFT: nat, sampleRate: real, m: Maths)
    requires Sound(m) && 0.0 < sampleRate
    ensures forall r, c :: 0 <= r < filters && 0 <= c < nFFT / 2 && MelBank(filters, nFFT, sampleRate, m)[r][c] != 0.0 ==>
      MelBins(filters, nFFT, sampleRate, m)[r] <= c < MelBins(filters, nFFT, sampleRate, m)[r + 2]
  {
    var bins := MelBins(filters, nFFT, sampleRate, m);
    MelBinsAscend(filters, nFFT, sampleRate, m);
    forall r, c | 0 <= r < filters && 0 <= c < nFFT / 2 && MelBank(filters, nFFT, sampleRate, m)[r][c] != 0.0
      ensures bins[r] <= c < bins[r + 2]
    {
      assert MelBank(filters, nFFT, sampleRate, m)[r][c] == Weight(bins, r + 1, c);
      FilterSupport(bins, r + 1, c);
    }
  }

  /**
   * The two edge loops of createMelFilterBank over given bin points, writing
   * into a zeroed bank; columns from nFFT / 2 on are skipped.
   */
  method TriangularFilters(filters: int, nFFT: int, bins: seq<int>) returns (bank: seq<seq<real>>)
    requires 0 <= filters && 0 <= nFFT && |bins| == filters + 2
    requires forall k :: 0 <= k < |bins| ==> 0 <= bins[k]
    ensures bank == FilterBank(bins, filters, nFFT / 2)
  {
    var half := nFFT / 2;
    bank := seq(filters, _ => seq(half, _ => 0.0));
    var i := 1;
    while i <= filters
      invariant 1 <= i <= filters + 1 && |bank| == filters
      invariant forall r :: 0 <= r < i - 1 ==> bank[r] == FilterRow(bins, r + 1, half)
      invariant forall r :: i - 1 <= r < filters ==> bank[r] == seq(half, _ => 0.0)
    {
      var row := RisingEdge(bins, i, half);
      row := FallingEdge(bins, i, half, row);
      assert row == FilterRow(bins, i, half);
      bank := bank[i - 1 := row];
      i := i + 1;
    }
  }

  /** The first edge loop for filter i - 1, on a zeroed row. */
  method RisingEdge(bins: seq<int>, i: int, half: nat) returns (row: seq<real>)
    requires 1 <= i < |bins| - 1 && 0 <= bins[i - 1]
    ensures |row| == half
    ensures forall c :: 0 <= c < half ==>
      row[c] == if bins[i - 1] <= c < bins[i] then (c - bins[i - 1]) as real / (bins[i] - bins[i - 1]) as real else 0.0
  {
    row := seq(half, _ => 0.0);
    var j := bins[i - 1];
    while j < bins[i]
      invariant bins[i - 1] <= j && (j <= bins[i] || j == bins[i - 1]) && |row| == half
      invariant forall c :: 0 <= c < half ==>
        row[c] == if bins[i - 1] <= c < j then (c - bins[i - 1]) as real / (bins[i] - bins[i - 1]) as real else 0.0
    {
      if j < half {
        row := row[j := (j - bins[i - 1]) as real / (bins[i] - bins[i - 1]) as real];
      }
      j := j + 1;
    }
  }

  /** The second edge loop for filter i - 1, over the row the first loop left. */
  method FallingEdge(bins: seq<int>, i: int, half: nat, rising: seq<real>) returns (row: seq<real>)
    requires 1 <= i < |bins| - 1 && 0 <= bins[i] && |rising| == half
    ensures |row| == half
    ensures forall c :: 0 <= c < half ==>
      row[c] == if bins[i] <= c < bins[i + 1] then (bins[i + 1] - c) as real / (bins[i + 1] - bins[i]) as real else rising[c]
  {
    row := rising;
    var j := bins[i];
    while j < bins[i + 1]
      invariant bins[i] <= j && (j <= bins[i + 1] || j == bins[i]) && |row| == half
      invariant forall c :: 0 <= c < half ==>
        row[c] == if bins[i] <= c < j then (bins[i + 1] - c) as real / (bins[i + 1] - bins[i]) as real else rising[c]
    {
      if j < half {
        row := row[j := (bins[i + 1] - j) as real / (bins[i + 1] - bins[i]) as real];
      }
      j := j + 1;
    }
  }

  /** createMelFilterBank: the three point loops, then the triangles. */
  method CreateMelFilterBank(filters: int, nFFT: int, sampleRate: real, m: Maths) returns (bank: seq<seq<real>>)
    requires 0 <= filters && 0 <= nFFT && 0.0 < sampleRate && Sound(m)
    ensures bank == MelBank(filters, nFFT, sampleRate, m)
  {
    var nyquist := sampleRate / 2.0;
    var melMin := HzToMel(0.0, m);
    var melMax := HzToMel(nyquist, m);
    var melPoints := seq(filters + 2, _ => 0.0);
    var i := 0;
    while i < filters + 2
      invariant 0 <= i <= filters + 2 && |melPoints| == filters + 2
      invariant forall k :: 0 <= k < i ==> melPoints[k] == MelPoint(k, filters, sampleRate, m)
    {
      melPoints := melPoints[i := melMin + (melMax - melMin) * i as real / (filters + 1) as real];
      i := i + 1;
    }
    var hzPoints := seq(filters + 2, _ => 0.0);
    i := 0;
    while i < filters + 2
      invariant 0 <= i <= filters + 2 && |hzPoints| == filters + 2
      invariant forall k :: 0 <= k < i ==> hzPoints[k] == MelToHz(MelPoint(k, filters, sampleRate, m), m)
    {
      hzPoints := hzPoints[i := MelToHz(melPoints[i], m)];
      i := i + 1;
    }
    var binPoints := seq(filters + 2, _ => 0);
    i := 0;
    while i < filters + 2
      invariant 0 <= i <= filters + 2 && |binPoints| == filters + 2
      invariant forall k :: 0 <= k < i ==> binPoints[k] == BinPoint(k, filters, nFFT, sampleRate, m)
    {
      assert hzPoints[i] * nFFT as real / sampleRate == Scaled(hzPoints[i], nFFT, sampleRate);
      binPoints := binPoints[i := Trunc(hzPoints[i] * nFFT as real / sampleRate)];
      i := i + 1;
    }
    assert binPoints == MelBins(filters, nFFT, sampleRate, m);
    MelBinsAscend(filters, nFFT, sampleRate, m);
    bank := TriangularFilters(filters, nFFT, binPoints);
  }

  // ---------------------------------------------------------------------
  // Energy and zero-crossing rate
  // ---------------------------------------------------------------------

  /** The sum of the squares of the first `count` samples, never negative. */
  function SumSquares(x: seq<real>, count: nat): (s: real)
    requires count <= |x|
    ensures 0.0 <= s
  {
    if count == 0 then 0.0 else SumSquares(x, count - 1) + x[count - 1] * x[count - 1]
  }

  /** A frame of zeros has a zero sum of squares. */
  lemma {:induction false} SumSquaresOfSilence(x: seq<real>, count: nat)
    requires count <= |x| && forall i :: 0 <= i < |x| ==> x[i] == 0.0
    ensures SumSquares(x, count) == 0.0
  {
    if count > 0 {
      SumSquaresOfSilence(x, count - 1);
    }
  }

  /** calculateEnergy: the root mean square of the frame, never negative when sqrt is sound. */
  function EnergyOf(frame: seq<real>, m: Maths): (e: real)
    requires |frame| > 0
    ensures Sound(m) ==> 0.0 <= e
  {
    m.sqrt(SumSquares(frame, |frame|) / |frame| as real)
  }

  /** Silence has zero energy. */
  lemma SilenceHasNoEnergy(frame: seq<real>, m: Maths)
    requires |frame| > 0 && Sound(m) && forall i :: 0 <= i < |frame| ==> frame[i] == 0.0
    ensures EnergyOf(frame, m) == 0.0
  {
    SumSquaresOfSilence(frame, |frame|);
  }

  method CalculateEnergy(frame: seq<real>, m: Maths) returns (energy: real)
    requires |frame| > 0
    ensures energy == EnergyOf(frame, m)
  {
    var sum := 0.0;
    var i := 0;
    while i < |frame|
      invariant 0 <= i <= |frame| && sum == SumSquares(frame, i)
    {
      sum := sum + frame[i] * frame[i];
      i := i + 1;
    }
    energy := m.sqrt(sum / |frame| as real);
  }

  /** Samples i - 1 and i lie on different sides of zero (zero counts as positive). */
  predicate Crosses(x: seq<real>, i: int)
    requires 1 <= i < |x|
  {
    (x[i] >= 0.0) != (x[i - 1] >= 0.0)
  }

  /** The number of sign changes between neighbours among the first `count` samples. */
  function Crossings(x: seq<real>, count: nat): (n: nat)
    requires count <= |x|
    ensures n <= if count == 0 then 0 else count - 1
  {
    if count <= 1 then 0
    else Crossings(x, count - 1) + if Crosses(x, count - 1) then 1 else 0
  }

  /** The indices i in [1, count) where the sign changes. */
  function SignChanges(x: seq<real>, count: nat): set<int>
    requires count <= |x|
  {
    set i | 1 <= i < count && Crosses(x, i)
  }

  /** Crossings counts exactly the indices where the sign changes. */
  lemma {:induction false} CrossingsCountsSignChanges(x: seq<real>, count: nat)
    requires count <= |x|
    ensures Crossings(x, count) == |SignChanges(x, count)|
  {
    if count <= 1 {
      assert SignChanges(x, count) == {};
    } else {
      CrossingsCountsSignChanges(x, count - 1);
      if Crosses(x, count - 1) {
        assert SignChanges(x, count) == SignChanges(x, count - 1) + {count - 1};
      } else {
        assert SignChanges(x, count) == SignChanges(x, count - 1);
      }
    }
  }

  /** A frame on one side of zero never crosses it. */
  lemma {:induction false} OneSignNoCrossings(x: seq<real>, count: nat)
    requires count <= |x|
    requires (forall i :: 0 <= i < |x| ==> x[i] >= 0.0) || (forall i :: 0 <= i < |x| ==> x[i] < 0.0)
    ensures Crossings(x, count) == 0
  {
    if count > 1 {
      OneSignNoCrossings(x, count - 1);
      assert !Crosses(x, count - 1);
    }
  }

  /** calculateZeroCrossingRate: sign changes per sample. */
  function ZeroCrossingRateOf(frame: seq<real>): real
    requires |frame| > 0
  {
    Crossings(frame, |frame|) as real / |frame| as real
  }

  /** The rate lies in [0, (n - 1) / n], and is 0 for a frame on one side of zero. */
  lemma ZeroCrossingRateBounds(frame: seq<real>)
    requires |frame| > 0
    ensures 0.0 <= ZeroCrossingRateOf(frame) <= (|frame| - 1) as real / |frame| as real
    ensures (forall i :: 0 <= i < |frame| ==> frame[i] >= 0.0) || (forall i :: 0 <= i < |frame| ==> frame[i] < 0.0)
      ==> ZeroCrossingRateOf(frame) == 0.0
  {
    var n := |frame| as real;
    var c := Crossings(frame, |frame|) as real;
    assert 0.0 <= c <= n - 1.0;
    assert c / n <= (n - 1.0) / n;
    if (forall i :: 0 <= i < |frame| ==> frame[i] >= 0.0) || (forall i :: 0 <= i < |frame| ==> frame[i] < 0.0) {
      OneSignNoCrossings(frame, |frame|);
    }
  }

  method ZeroCrossingRate(frame: seq<real>) returns (rate: real)
    requires |frame| > 0
    ensures rate == ZeroCrossingRateOf(frame)
  {
    var crossings := 0;
    var i := 1;
    while i < |frame|
      invariant 1 <= i <= |frame| && crossings == Crossings(frame, i)
    {
      if (frame[i] >= 0.0) != (frame[i - 1] >= 0.0) {
        crossings := crossings + 1;
      }
      i := i + 1;
    }
    rate := crossings as real / |frame| as real;
  }

  // ---------------------------------------------------------------------
  // Spectral centroid
  // ---------------------------------------------------------------------

  /** The frequency of magnitude bin i of n: i times the sample rate over 2n. */
  function BinFrequency(i: int, n: int, sampleRate: real): real
    requires n > 0
  {
    i as real * sampleRate / (2.0 * n as real)
  }

  /** The sum of the first `count` magnitudes, each weighted by its frequency. */
  function WeightedTotal(spectrum: seq<real>, sampleRate: real, count: nat): real
    requires count <= |spectrum|
  {
    if count == 0 then 0.0
    else WeightedTotal(spectrum, sampleRate, count - 1) + BinFrequency(count - 1, |spectrum|, sampleRate) * spectrum[count - 1]
  }

  /** The sum of the first `count` magnitudes. */
  function Total(spectrum: seq<real>, count: nat): real
    requires count <= |spectrum|
  {
    if count == 0 then 0.0 else Total(spectrum, count - 1) + spectrum[count - 1]
  }

  /** The magnitude-weighted mean frequency, or 0 when the magnitudes do not add up to more than 0. */
  function CentroidOf(spectrum: seq<real>, sampleRate: real): (c: real)
    ensures Total(spectrum, |spectrum|) <= 0.0 ==> c == 0.0
  {
    var den := Total(spectrum, |spectrum|);
    if den > 0.0 then WeightedTotal(spectrum, sampleRate, |spectrum|) / den else 0.0
  }

  /** Every bin frequency lies between 0 and the Nyquist frequency. */
  lemma BinFrequencyBelowNyquist(i: int, n: int, sampleRate: real)
    requires 0 <= i < n && 0.0 <= sampleRate
    ensures 0.0 <= BinFrequency(i, n, sampleRate) <= sampleRate / 2.0
  {
    assert i as real * sampleRate <= n as real * sampleRate;
    assert n as real * sampleRate / (2.0 * n as real) == sampleRate / 2.0;
  }

  /** Weighting non-negative magnitudes by frequencies in [0, sr/2] keeps the weighted sum within [0, sr/2] times the plain sum. */
  lemma {:induction false} WeightedTotalBounds(spectrum: seq<real>, sampleRate: real, count: nat)
    requires count <= |spectrum| && 0.0 <= sampleRate
    requires forall i :: 0 <= i < |spectrum| ==> 0.0 <= spectrum[i]
    ensures 0.0 <= Total(spectrum, count)
    ensures 0.0 <= WeightedTotal(spectrum, sampleRate, count) <= sampleRate / 2.0 * Total(spectrum, count)
  {
    if count > 0 {
      WeightedTotalBounds(spectrum, sampleRate, count - 1);
      var f := BinFrequency(count - 1, |spectrum|, sampleRate);
      var s := spectrum[count - 1];
      BinFrequencyBelowNyquist(count - 1, |spectrum|, sampleRate);
      assert 0.0 <= f * s <= sampleRate / 2.0 * s;
      assert sampleRate / 2.0 * Total(spectrum, count) == sampleRate / 2.0 * Total(spectrum, count - 1) + sampleRate / 2.0 * s;
    }
  }

  /** For non-negative magnitudes the centroid lies between 0 and the Nyquist frequency. */
  lemma CentroidBelowNyquist(spectrum: seq<real>, sampleRate: real)
    requires 0.0 <= sampleRate && forall i :: 0 <= i < |spectrum| ==> 0.0 <= spectrum[i]
    ensures 0.0 <= CentroidOf(spectrum, sampleRate) <= sampleRate / 2.0
  {
    WeightedTotalBounds(spectrum, sampleRate, |spectrum|);
    var den := Total(spectrum, |spectrum|);
    if den > 0.0 {
      var num := WeightedTotal(spectrum, sampleRate, |spectrum|);
      assert num / den <= (sampleRate / 2.0 * den) / den;
      assert (sampleRate / 2.0 * den) / den == sampleRate / 2.0;
    }
  }

  /** A spectrum of zeros adds up to 0. */
  lemma {:induction false} SilentTotal(spectrum: seq<real>, count: nat)
    requires count <= |spectrum| && forall i :: 0 <= i < |spectrum| ==> spectrum[i] == 0.0
    ensures Total(spectrum, count) == 0.0
  {
    if count > 0 {
      SilentTotal(spectrum, count - 1);
    }
  }

  /** A spectrum of zeros has centroid 0. */
  lemma SilentSpectrumCentroid(spectrum: seq<real>, sampleRate: real)
    requires forall i :: 0 <= i < |spectrum| ==> spectrum[i] == 0.0
    ensures CentroidOf(spectrum, sampleRate) == 0.0
  {
    SilentTotal(spectrum, |spectrum|);
  }

  /** The centroid of the unwindowed frame's magnitude spectrum. */
  function FrameCentroid(frame: seq<real>, sampleRate: real, m: Maths): real
  {
    CentroidOf(MagnitudesOf(DftOf(frame, m), m), sampleRate)
  }

  /** With a sound sqrt the magnitudes are non-negative, so the frame's centroid lies in [0, sr/2]. */
  lemma FrameCentroidBelowNyquist(frame: seq<real>, sampleRate: real, m: Maths)
    requires Sound(m) && 0.0 <= sampleRate
    ensures 0.0 <= FrameCentroid(frame, sampleRate, m) <= sampleRate / 2.0
  {
    CentroidBelowNyquist(MagnitudesOf(DftOf(frame, m), m), sampleRate);
  }

  /** calculateSpectralCentroid. */
  method SpectralCentroid(frame: seq<real>, sampleRate: real, m: Maths) returns (centroid: real)
    ensures centroid == FrameCentroid(frame, sampleRate, m)
  {
    var fftResult := Dft(frame, m);
    var spectrum := MagnitudeSpectrum(fftResult, m);
    centroid := WeightedMean(spectrum, sampleRate);
  }

  /** The weighting loop of calculateSpectralCentroid over a given magnitude spectrum. */
  method WeightedMean(spectrum: seq<real>, sampleRate: real) returns (centroid: real)
    ensures centroid == CentroidOf(spectrum, sampleRate)
  {
    var numerator := 0.0;
    var denominator := 0.0;
    var i := 0;
    while i < |spectrum|
      invariant 0 <= i <= |spectrum|
      invariant numerator == WeightedTotal(spectrum, sampleRate, i)
      invariant denominator == Total(spectrum, i)
    {
      var frequency := i as real * sampleRate / (2.0 * |spectrum| as real);
      assert frequency == BinFrequency((i + 1) - 1, |spectrum|, sampleRate);
      numerator := numerator + frequency * spectrum[i];
      denominator := denominator + spectrum[i];
      i := i + 1;
    }
    centroid := if denominator > 0.0 then numerator / denominator else 0.0;
  }

  // ---------------------------------------------------------------------
  // Pitch
  // ---------------------------------------------------------------------

  /** The first `count` products x[i] x[i + lag]. */
  function LagSum(x: seq<real>, lag: nat, count: nat): real
    requires lag + count <= |x|
  {
    if count == 0 then 0.0 else LagSum(x, lag, count - 1) + x[count - 1] * x[count - 1 + lag]
  }

  /** The autocorrelation of the frame at every lag from 0 to n - 1. */
  function AutocorrOf(x: seq<real>): (ac: seq<real>)
    ensures |ac| == |x|
  {
    seq(|x|, lag requires 0 <= lag < |x| => LagSum(x, lag, |x| - lag))
  }

  /** At lag 0 the autocorrelation is the sum of squares. */
  lemma {:induction false} LagZeroIsSumSquares(x: seq<real>, count: nat)
    requires count <= |x|
    ensures LagSum(x, 0, count) == SumSquares(x, count)
  {
    if count > 0 {
      LagZeroIsSumSquares(x, count - 1);
    }
  }

  /** The autocorrelation of silence is zero at every lag. */
  lemma {:induction false} SilentLagSum(x: seq<real>, lag: nat, count: nat)
    requires lag + count <= |x| && forall i :: 0 <= i < |x| ==> x[i] == 0.0
    ensures LagSum(x, lag, count) == 0.0
  {
    if count > 0 {
      SilentLagSum(x, lag, count - 1);
    }
  }

  /**
   * The peak search over lags lo .. p - 1, starting from correlation 0 at
   * lag 0 and moving only on a strictly larger value: the result is the
   * first lag of largest correlation above 0, or (0, 0) when none is above 0.
   */
  function LagSearch(ac: seq<real>, lo: int, p: int): (best: (real, int))
    requires 0 <= lo <= p <= |ac|
    ensures 0.0 <= best.0
    ensures forall l :: lo <= l < p ==> ac[l] <= best.0
    ensures (best.0 == 0.0 && best.1 == 0) ||
            (lo <= best.1 < p && ac[best.1] == best.0 && 0.0 < best.0 &&
             forall l :: lo <= l < best.1 ==> ac[l] < best.0)
    decreases p - lo
  {
    if p == lo then (0.0, 0)
    else
      var prev := LagSearch(ac, lo, p - 1);
      if ac[p - 1] > prev.0 then (ac[p - 1], p - 1) else prev
  }

  /** A lag window that is not empty never starts below 0: a negative sample rate makes it empty. */
  lemma PitchLagsNonNegative(sampleRate: real)
    ensures Trunc(sampleRate / 800.0) <= Trunc(sampleRate / 80.0) ==> 0 <= Trunc(sampleRate / 800.0)
  {
    var r := sampleRate / 800.0;
    assert sampleRate / 80.0 == 10.0 * r;
  }

  /** The lag of the peak search over lags minPeriod .. maxPeriod that lie below |ac|; 0 when there are none. */
  function PeakLag(ac: seq<real>, minPeriod: int, maxPeriod: int): int
    requires minPeriod <= maxPeriod ==> 0 <= minPeriod
  {
    var end := if maxPeriod + 1 < |ac| then maxPeriod + 1 else |ac|;
    if end <= minPeriod then 0 else LagSearch(ac, minPeriod, end).1
  }

  /** The lag estimatePitch picks: lags from sr / 800 to sr / 80, below n, truncated; 0 for none. */
  function PitchPeriod(x: seq<real>, sampleRate: real): (period: int)
  {
    PitchLagsNonNegative(sampleRate);
    PeakLag(AutocorrOf(x), Trunc(sampleRate / 800.0), Trunc(sampleRate / 80.0))
  }

  /** estimatePitch: the sample rate over the chosen lag, or 0 when the lag is 0. */
  function PitchOf(x: seq<real>, sampleRate: real): (pitch: real)
    ensures PitchPeriod(x, sampleRate) <= 0 ==> pitch == 0.0
  {
    var period := PitchPeriod(x, sampleRate);
    if period > 0 then sampleRate / period as real else 0.0
  }

  /** A nonzero pitch comes from the first lag of the window whose autocorrelation is largest and above 0. */
  lemma PitchPeriodIsFirstPeak(x: seq<real>, sampleRate: real)
    ensures var p := PitchPeriod(x, sampleRate);
      var ac := AutocorrOf(x);
      p != 0 ==>
        Trunc(sampleRate / 800.0) <= p <= Trunc(sampleRate / 80.0) && p < |x| && 0.0 < ac[p] &&
        (forall l :: Trunc(sampleRate / 800.0) <= l <= Trunc(sampleRate / 80.0) && 0 <= l < |x| ==> ac[l] <= ac[p]) &&
        (forall l :: Trunc(sampleRate / 800.0) <= l < p ==> ac[l] < ac[p])
  {
    PitchLagsNonNegative(sampleRate);
  }

  /** Silence has pitch 0. */
  lemma SilenceHasNoPitch(x: seq<real>, sampleRate: real)
    requires forall i :: 0 <= i < |x| ==> x[i] == 0.0
    ensures PitchOf(x, sampleRate) == 0.0
  {
    var ac := AutocorrOf(x);
    forall lag | 0 <= lag < |x|
      ensures ac[lag] == 0.0
    {
      SilentLagSum(x, lag, |x| - lag);
    }
    PitchPeriodIsFirstPeak(x, sampleRate);
  }

  /** The autocorrelation loop of estimatePitch. */
  method Autocorrelation(frame: seq<real>) returns (autocorr: seq<real>)
    ensures autocorr == AutocorrOf(frame)
  {
    var n := |frame|;
    autocorr := seq(n, _ => 0.0);
    var lag := 0;
    while lag < n
      invariant 0 <= lag <= n && |autocorr| == n
      invariant forall l :: 0 <= l < lag ==> autocorr[l] == LagSum(frame, l, n - l)
    {
      var sum := 0.0;
      var i := 0;
      while i < n - lag
        invariant 0 <= i <= n - lag && sum == LagSum(frame, lag, i)
      {
        sum := sum + frame[i] * frame[i + lag];
        i := i + 1;
      }
      autocorr := autocorr[lag := sum];
      lag := lag + 1;
    }
  }

  /** estimatePitch. */
  method EstimatePitch(frame: seq<real>, sampleRate: real) returns (pitch: real)
    ensures pitch == PitchOf(frame, sampleRate)
  {
    var autocorr := Autocorrelation(frame);
    var minPeriod := Trunc(sampleRate / 800.0);
    var maxPeriod := Trunc(sampleRate / 80.0);
    PitchLagsNonNegative(sampleRate);
    var bestPeriod := SearchLags(autocorr, minPeriod, maxPeriod);
    pitch := if bestPeriod > 0 then sampleRate / bestPeriod as real else 0.0;
  }

  /** The peak search loop of estimatePitch: a lag replaces the best so far only when its correlation is strictly larger. */
  method SearchLags(autocorr: seq<real>, minPeriod: int, maxPeriod: int) returns (bestPeriod: int)
    requires minPeriod <= maxPeriod ==> 0 <= minPeriod
    ensures bestPeriod == PeakLag(autocorr, minPeriod, maxPeriod)
  {
    ghost var end := if maxPeriod + 1 < |autocorr| then maxPeriod + 1 else |autocorr|;
    var maxCorr := 0.0;
    bestPeriod := 0;
    var period := minPeriod;
    while period <= maxPeriod && period < |autocorr|
      invariant minPeriod <= period && (period <= end || period == minPeriod)
      invariant period > minPeriod ==> 0 <= minPeriod && (maxCorr, bestPeriod) == LagSearch(autocorr, minPeriod, period)
      invariant period == minPeriod ==> maxCorr == 0.0 && bestPeriod == 0
    {
      if autocorr[period] > maxCorr {
        maxCorr := autocorr[period];
        bestPeriod := period;
      }
      period := period + 1;
    }
  }

  // ---------------------------------------------------------------------
  // MFCC
  // ---------------------------------------------------------------------

  /** The first `count` magnitudes times the filter's weights. */
  function FilterSum(spectrum: seq<real>, weights: seq<real>, count: nat): real
    requires count <= |spectrum| && count <= |weights|
  {
    if count == 0 then 0.0 else FilterSum(spectrum, weights, count - 1) + spectrum[count - 1] * weights[count - 1]
  }

  /** Each filter's energy over the spectrum, clamped below at 1e-10, then its natural logarithm. */
  function LogEnergiesOf(spectrum: seq<real>, bank: seq<seq<real>>, m: Maths): (e: seq<real>)
    requires forall r :: 0 <= r < |bank| ==> |spectrum| <= |bank[r]|
    ensures |e| == |bank|
  {
    seq(|bank|, r requires 0 <= r < |bank| => m.ln(MaxReal(FilterSum(spectrum, bank[r], |spectrum|), EnergyFloor)))
  }

  /** The filter loop of extractMFCC. */
  method ApplyFilters(spectrum: seq<real>, bank: seq<seq<real>>, m: Maths) returns (energies: seq<real>)
    requires forall r :: 0 <= r < |bank| ==> |spectrum| <= |bank[r]|
    ensures energies == LogEnergiesOf(spectrum, bank, m)
  {
    energies := seq(|bank|, _ => 0.0);
    var i := 0;
    while i < |bank|
      invariant 0 <= i <= |bank| && |energies| == |bank|
      invariant forall r :: 0 <= r < i ==> energies[r] == m.ln(MaxReal(FilterSum(spectrum, bank[r], |spectrum|), EnergyFloor))
    {
      var energy := 0.0;
      var j := 0;
      while j < |spectrum|
        invariant 0 <= j <= |spectrum| && energy == FilterSum(spectrum, bank[i], j)
      {
        energy := energy + spectrum[j] * bank[i][j];
        j := j + 1;
      }
      energies := energies[i := m.ln(MaxReal(energy, EnergyFloor))];
      i := i + 1;
    }
  }

  /**
   * All 26 cepstral coefficients of a frame: Hamming window, DFT, magnitude
   * spectrum, log mel filter energies, DCT.
   */
  function CepstrumOf(frame: seq<real>, sampleRate: real, m: Maths): (c: seq<real>)
    requires sampleRate != 0.0
    ensures |c| == Filters
  {
    var spectrum := MagnitudesOf(DftOf(Windowed(frame, m), m), m);
    DctOf(LogEnergiesOf(spectrum, MelBank(Filters, |frame|, sampleRate, m), m), m)
  }

  /**
   * A one-sample frame keeps no bin of its spectrum, so the 0/0 of its window
   * never reaches the coefficients: every filter energy is log(1e-10).
   */
  lemma OneSampleCepstrum(frame: seq<real>, sampleRate: real, m: Maths)
    requires |frame| == 1 && sampleRate != 0.0
    ensures CepstrumOf(frame, sampleRate, m) == DctOf(seq(Filters, _ => m.ln(EnergyFloor)), m)
  {
    var spectrum := MagnitudesOf(DftOf(Windowed(frame, m), m), m);
    assert spectrum == [];
    var energies := LogEnergiesOf(spectrum, MelBank(Filters, |frame|, sampleRate, m), m);
    forall r | 0 <= r < Filters
      ensures energies[r] == m.ln(EnergyFloor)
    {
      assert FilterSum(spectrum, MelBank(Filters, |frame|, sampleRate, m)[r], 0) == 0.0;
      assert MaxReal(0.0, EnergyFloor) == EnergyFloor;
    }
    assert energies == seq(Filters, _ => m.ln(EnergyFloor));
  }

  /** The coefficients of a one-sample frame are the same whatever value its 0/0 takes. */
  lemma OneSampleCepstrumIgnoresNan(frame: seq<real>, sampleRate: real, m: Maths, v: real)
    requires |frame| == 1 && sampleRate != 0.0
    ensures CepstrumOf(frame, sampleRate, m) == CepstrumOf(frame, sampleRate, m.(nan := v))
  {
    var x := seq(Filters, _ => m.ln(EnergyFloor));
    OneSampleCepstrum(frame, sampleRate, m);
    OneSampleCepstrum(frame, sampleRate, m.(nan := v));
    forall k | 0 <= k < Filters
      ensures DctOf(x, m)[k] == DctOf(x, m.(nan := v))[k]
    {
      DctSumUsesCos(x, k, Filters, m, m.(nan := v));
    }
  }

  /** The DCT depends on the Maths only through cos. */
  lemma {:induction false} DctSumUsesCos(x: seq<real>, k: int, count: nat, m: Maths, m': Maths)
    requires count <= |x| && m.cos == m'.cos
    ensures DctSum(x, k, count, m) == DctSum(x, k, count, m')
  {
    if count > 0 {
      DctSumUsesCos(x, k, count - 1, m, m');
    }
  }

  /**
   * extractMFCC: exactly nCoeffs values, the first min(nCoeffs, 26)
   * coefficients followed by zeros.
   */
  method ExtractMfcc(frame: seq<real>, sampleRate: real, nCoeffs: int, m: Maths) returns (result: seq<real>)
    requires 0.0 < sampleRate && 0 <= nCoeffs && Sound(m)
    ensures |result| == nCoeffs
    ensures forall i :: 0 <= i < nCoeffs ==>
      result[i] == if i < Filters then CepstrumOf(frame, sampleRate, m)[i] else 0.0
  {
    var frameSize := |frame|;
    var window := HammingWindow(frameSize, m);
    var windowed := seq(frameSize, _ => 0.0);
    var i := 0;
    while i < frameSize
      invariant 0 <= i <= frameSize && |windowed| == frameSize
      invariant forall k :: 0 <= k < i ==> windowed[k] == frame[k] * window[k]
    {
      windowed := windowed[i := frame[i] * window[i]];
      i := i + 1;
    }
    forall k | 0 <= k < frameSize
      ensures windowed[k] == Windowed(frame, m)[k]
    {
      assert window[k] == HammingOf(frameSize, m)[k];
    }
    assert windowed == Windowed(frame, m);
    var fftResult := Dft(windowed, m);
    var spectrum := MagnitudeSpectrum(fftResult, m);
    var bank := CreateMelFilterBank(Filters, frameSize, sampleRate, m);
    var energies := ApplyFilters(spectrum, bank, m);
    var mfcc := Dct(energies, m);
    assert mfcc == CepstrumOf(frame, sampleRate, m);
    result := seq(nCoeffs, _ => 0.0);
    i := 0;
    while i < nCoeffs && i < |mfcc|
      invariant 0 <= i <= nCoeffs && i <= |mfcc| && |result| == nCoeffs
      invariant forall k :: 0 <= k < nCoeffs ==> result[k] == if k < i then mfcc[k] else 0.0
    {
      result := result[i := mfcc[i]];
      i := i + 1;
    }
  }

  // ---------------------------------------------------------------------
  // Framing, feature rows and the C entry points
  // ---------------------------------------------------------------------

  /** The number of frames processAudioFrames cuts: one at every multiple of hop that leaves a whole frame. */
  function FrameCount(length: int, frameSize: int, hop: int): nat
    requires hop > 0
  {
    if length >= frameSize then (length - frameSize) / hop + 1 else 0
  }

  /** Multiplying by a non-negative factor keeps order. */
  lemma MulLe(x: int, y: int, b: int)
    requires x <= y && 0 <= b
    ensures x * b <= y * b
  {
    assert y * b - x * b == (y - x) * b;
  }

  /** Euclidean division is the only quotient that brackets the dividend. */
  lemma DivisionBracket(a: int, b: int, q: int)
    requires b > 0 && q * b <= a < q * b + b
    ensures a / b == q
  {
    var d := a / b;
    assert d * b <= a < d * b + b;
    if d < q {
      MulLe(d + 1, q, b);
    } else if d > q {
      MulLe(q + 1, d, b);
    }
  }

  /** Frame k starts k hops into the signal: the loop adds hop once per frame. */
  function FrameStart(k: nat, hop: nat): nat
  {
    if k == 0 then 0 else FrameStart(k - 1, hop) + hop
  }

  /** Frame k starts at sample k * hop. */
  lemma {:induction false} FrameStartIsProduct(k: nat, hop: nat)
    ensures FrameStart(k, hop) == k * hop
  {
    if k > 0 {
      FrameStartIsProduct(k - 1, hop);
      assert (k - 1) * hop + hop == k * hop;
    }
  }

  /** Every counted frame fits in the signal, and the frame after the last one would not. */
  lemma FramesFit(length: int, frameSize: int, hop: int)
    requires hop > 0
    ensures forall k: nat :: k < FrameCount(length, frameSize, hop) ==> FrameStart(k, hop) + frameSize <= length
    ensures length < FrameStart(FrameCount(length, frameSize, hop), hop) + frameSize
  {
    var n := FrameCount(length, frameSize, hop);
    FrameStartIsProduct(n, hop);
    if length >= frameSize {
      var q := (length - frameSize) / hop;
      assert q * hop <= length - frameSize < q * hop + hop;
      assert n * hop == q * hop + hop;
      forall k: nat | k < n
        ensures FrameStart(k, hop) + frameSize <= length
      {
        FrameStartIsProduct(k, hop);
        MulLe(k, q, hop);
      }
    }
  }

  /** A stride of n frames that ends where the next frame would overrun the signal covers FrameCount frames. */
  lemma FrameCountOfStride(length: int, frameSize: int, hop: int, n: nat)
    requires hop > 0
    requires length - frameSize < FrameStart(n, hop)
    requires n > 0 ==> FrameStart(n - 1, hop) <= length - frameSize
    ensures n == FrameCount(length, frameSize, hop)
  {
    FrameStartIsProduct(n, hop);
    if n > 0 {
      FrameStartIsProduct(n - 1, hop);
      assert (n - 1) * hop + hop == n * hop;
      DivisionBracket(length - frameSize, hop, n - 1);
    }
  }

  /** Column c of a frame's feature row: cepstral coefficient c below 13, then energy, zero-crossing rate, centroid and pitch. */
  function FeatureAt(frame: seq<real>, sampleRate: real, m: Maths, c: int): real
    requires |frame| >= 1 && sampleRate != 0.0 && 0 <= c < RowLength
  {
    if c < Coefficients then CepstrumOf(frame, sampleRate, m)[c]
    else if c == Coefficients then EnergyOf(frame, m)
    else if c == Coefficients + 1 then ZeroCrossingRateOf(frame)
    else if c == Coefficients + 2 then FrameCentroid(frame, sampleRate, m)
    else PitchOf(frame, sampleRate)
  }

  /** One feature row: the first 13 coefficients, then energy, zero-crossing rate, centroid and pitch. */
  function FeatureRow(frame: seq<real>, sampleRate: real, m: Maths): (row: seq<real>)
    requires |frame| >= 1 && sampleRate != 0.0
    ensures |row| == RowLength
  {
    seq(RowLength, c requires 0 <= c < RowLength => FeatureAt(frame, sampleRate, m, c))
  }

  /** The per-frame body of processAudioFrames: the five extractors, combined into one row. */
  method FrameFeatures(frame: seq<real>, sampleRate: real, m: Maths) returns (frameFeatures: seq<real>)
    requires |frame| >= 1 && 0.0 < sampleRate && Sound(m)
    ensures frameFeatures == FeatureRow(frame, sampleRate, m)
  {
    var mfcc := ExtractMfcc(frame, sampleRate, Coefficients, m);
    assert mfcc == CepstrumOf(frame, sampleRate, m)[..Coefficients];
    var energy := CalculateEnergy(frame, m);
    var zcr := ZeroCrossingRate(frame);
    var spectralCentroid := SpectralCentroid(frame, sampleRate, m);
    var pitch := EstimatePitch(frame, sampleRate);
    frameFeatures := mfcc + [energy, zcr, spectralCentroid, pitch];
    forall c | 0 <= c < RowLength
      ensures frameFeatures[c] == FeatureAt(frame, sampleRate, m, c)
    {
    }
  }

  /** The copy loop of processAudioFrames: the frameSize samples from sample `start` on. */
  method CopyFrame(audio: seq<real>, start: int, frameSize: int) returns (frame: seq<real>)
    requires 0 <= start && 0 <= frameSize && start + frameSize <= |audio|
    ensures frame == audio[start .. start + frameSize]
  {
    frame := seq(frameSize, _ => 0.0);
    var j := 0;
    while j < frameSize
      invariant 0 <= j <= frameSize && |frame| == frameSize
      invariant forall t :: 0 <= t < j ==> frame[t] == audio[start + t]
    {
      frame := frame[j := audio[start + j]];
      j := j + 1;
    }
  }

  /** Frame k: the frameSize samples from FrameStart(k, hop) on. */
  function FrameAt(audio: seq<real>, k: nat, hop: nat, frameSize: nat): seq<real>
    requires FrameStart(k, hop) + frameSize <= |audio|
  {
    audio[FrameStart(k, hop) .. FrameStart(k, hop) + frameSize]
  }

  /** The feature rows of frames 0 .. n - 1, in order; the last of them must fit in the signal. */
  function FrameRows(audio: seq<real>, sampleRate: real, frameSize: int, hop: int, m: Maths, n: nat): (rows: seq<seq<real>>)
    requires 1 <= frameSize && sampleRate != 0.0 && 0 < hop
    requires n == 0 || FrameStart(n - 1, hop) + frameSize <= |audio|
    ensures |rows| == n
  {
    if n == 0 then []
    else
      FrameRows(audio, sampleRate, frameSize, hop, m, n - 1) + [FeatureRow(FrameAt(audio, n - 1, hop, frameSize), sampleRate, m)]
  }

  /** The rows of n + 1 frames are the rows of n frames followed by the row of frame n. */
  lemma FrameRowsSnoc(audio: seq<real>, sampleRate: real, frameSize: int, hop: int, m: Maths, n: nat, row: seq<real>)
    requires 1 <= frameSize && sampleRate != 0.0 && 0 < hop
    requires FrameStart(n, hop) + frameSize <= |audio|
    requires row == FeatureRow(FrameAt(audio, n, hop, frameSize), sampleRate, m)
    ensures FrameRows(audio, sampleRate, frameSize, hop, m, n + 1) == FrameRows(audio, sampleRate, frameSize, hop, m, n) + [row]
  {
  }

  /**
   * Row k of the rows of a signal's first `length` samples is the feature
   * row of frame k of the whole signal, which lies in those samples.
   */
  lemma {:induction false} FrameRowsAt(audio: seq<real>, length: int, sampleRate: real, frameSize: int, hop: int, m: Maths, n: nat)
    requires 1 <= frameSize && sampleRate != 0.0 && 0 < hop && 0 <= length <= |audio|
    requires n == 0 || FrameStart(n - 1, hop) + frameSize <= length
    ensures forall k: nat :: k < n ==>
      FrameStart(k, hop) + frameSize <= length &&
      FrameRows(audio[..length], sampleRate, frameSize, hop, m, n)[k] == FeatureRow(FrameAt(audio, k, hop, frameSize), sampleRate, m)
  {
    if n > 0 {
      var prefix := audio[..length];
      FrameRowsAt(audio, length, sampleRate, frameSize, hop, m, n - 1);
      var last := FrameAt(prefix, n - 1, hop, frameSize);
      assert last == FrameAt(audio, n - 1, hop, frameSize);
      var before := FrameRows(prefix, sampleRate, frameSize, hop, m, n - 1);
      var rows := FrameRows(prefix, sampleRate, frameSize, hop, m, n);
      assert rows == before + [FeatureRow(last, sampleRate, m)];
      forall k: nat | k < n
        ensures FrameStart(k, hop) + frameSize <= length
        ensures rows[k] == FeatureRow(FrameAt(audio, k, hop, frameSize), sampleRate, m)
      {
        if k < n - 1 {
          assert rows[k] == before[k];
        }
      }
    }
  }

  /** One pass of the body of processAudioFrames: copy frame k, which starts at sample i, and extract its row. */
  method FrameRow(audio: seq<real>, i: int, ghost k: nat, hop: nat, frameSize: nat, sampleRate: real, m: Maths)
    returns (frameFeatures: seq<real>)
    requires 1 <= frameSize && 0.0 < sampleRate && Sound(m)
    requires i == FrameStart(k, hop) && i + frameSize <= |audio|
    ensures frameFeatures == FeatureRow(FrameAt(audio, k, hop, frameSize), sampleRate, m)
  {
    var frame := CopyFrame(audio, i, frameSize);
    assert frame == FrameAt(audio, k, hop, frameSize);
    frameFeatures := FrameFeatures(frame, sampleRate, m);
  }

  /**
   * processAudioFrames: one row per frame that fits, frame k starting at
   * sample k * hop.
   */
  method ProcessAudioFrames(audio: seq<real>, sampleRate: real, frameSize: int, hop: int, m: Maths)
    returns (features: seq<seq<real>>)
    requires 0 < hop && 1 <= frameSize && 0.0 < sampleRate && Sound(m)
    ensures |features| == FrameCount(|audio|, frameSize, hop)
    ensures |features| == 0 || FrameStart(|features| - 1, hop) + frameSize <= |audio|
    ensures features == FrameRows(audio, sampleRate, frameSize, hop, m, |features|)
  {
    features := [];
    var i := 0;
    while i <= |audio| - frameSize
      invariant 0 <= i && i == FrameStart(|features|, hop)
      invariant |features| == 0 || FrameStart(|features| - 1, hop) + frameSize <= |audio|
      invariant features == FrameRows(audio, sampleRate, frameSize, hop, m, |features|)
    {
      var frameFeatures := FrameRow(audio, i, |features|, hop, frameSize, sampleRate, m);
      FrameRowsSnoc(audio, sampleRate, frameSize, hop, m, |features|, frameFeatures);
      features := features + [frameFeatures];
      i := i + hop;
    }
    FrameCountOfStride(|audio|, frameSize, hop, |features|);
  }

  /**
   * process_audio_features: hop is half the frame, and the rows are written
   * one after the other, frames x 17 values in all.
   */
  method ProcessAudioFeatures(audioData: seq<real>, dataLen: int, sampleRate: real, frameSize: int, m: Maths)
    returns (result: seq<real>)
    requires 0 <= dataLen <= |audioData| && 2 <= frameSize && 0.0 < sampleRate && Sound(m)
    ensures var frames := FrameCount(dataLen, frameSize, frameSize / 2);
      |result| == frames * RowLength &&
      forall k: nat, c :: k < frames && 0 <= c < RowLength ==>
        FrameStart(k, frameSize / 2) + frameSize <= dataLen &&
        Layout.Offset(k, c, RowLength) < |result| &&
        result[Layout.Offset(k, c, RowLength)] == FeatureRow(FrameAt(audioData, k, frameSize / 2, frameSize), sampleRate, m)[c]
  {
    var audioVec := audioData[..dataLen];
    var hopSize := frameSize / 2;
    var features := ProcessAudioFrames(audioVec, sampleRate, frameSize, hopSize, m);
    FrameRowsAt(audioData, dataLen, sampleRate, frameSize, hopSize, m, |features|);
    assert Layout.Rectangular(features, RowLength);
    result := Layout.Flatten(features, RowLength);
  }

  /** extract_mfcc: the coefficients of the first spectrum_len samples, copied out. */
  method ExtractMfccEntry(samples: seq<real>, sampleLen: int, sampleRate: real, numCoeffs: int, m: Maths)
    returns (result: seq<real>)
    requires 0 <= sampleLen <= |samples| && 0.0 < sampleRate && 0 <= numCoeffs && Sound(m)
    ensures |result| == numCoeffs
    ensures forall i :: 0 <= i < numCoeffs ==>
      result[i] == if i < Filters then CepstrumOf(samples[..sampleLen], sampleRate, m)[i] else 0.0
  {
    var audioFrame := samples[..sampleLen];
    var mfcc := ExtractMfcc(audioFrame, sampleRate, numCoeffs, m);
    result := seq(|mfcc|, _ => 0.0);
    var i := 0;
    while i < |mfcc|
      invariant 0 <= i <= |mfcc| && |result| == |mfcc|
      invariant forall k :: 0 <= k < i ==> result[k] == mfcc[k]
    {
      result := result[i := mfcc[i]];
      i := i + 1;
    }
  }
}
