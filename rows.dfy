/** The benchmark dataset: the row record, the fixed dataset size and path,
    and the generator that draws every row from a seeded random engine. */
module Rows {

  /** Number of rows every benchmark inserts. */
  const N: nat := 1024

  /** Seed of the 64-bit Mersenne Twister each benchmark creates. The
      `Source` that `Inserts.RunBenchmark` takes stands for the values the
      three distributions draw from an engine seeded with `Seed`; the engine
      itself is not modelled, so the constant is documentation only. */
  const Seed: nat := 831

  /** The constant `path` every generated row carries. */
  const Path: string := "/Users/family/Devel/vcpkg/scripts/buildsystems"

  newtype Int32 = x: int | -0x8000_0000 <= x < 0x8000_0000

  /** What a default-constructed uniform integer distribution over `int`
      yields: a value in [0, INT_MAX]. */
  type NonNegInt32 = x: Int32 | 0 <= x

  /** An IEEE 754 binary64 value, kept as its bit pattern and never interpreted. */
  newtype Double = b: int | 0 <= b < 0x1_0000_0000_0000_0000

  /** An IEEE 754 binary32 value, kept as its bit pattern and never interpreted. */
  newtype Float = b: int | 0 <= b < 0x1_0000_0000

  datatype Row = Row(path: string, x: Int32, y: Double, z: Float)

  /** The random values a seeded engine hands out: the value returned by the
      n-th distribution call on the engine, for each of the three
      distributions. How many engine words one call consumes is not modelled. */
  datatype Source = Source(ints: nat -> NonNegInt32, doubles: nat -> Double, floats: nat -> Float)

  /** The row built from the three draws starting at call position `k`:
      the int, then the double, then the float (a braced initialiser list
      evaluates its elements left to right). */
  function DrawnRow(src: Source, k: nat): Row {
    Row(Path, src.ints(k), src.doubles(k + 1), src.floats(k + 2))
  }

  /** The `n` rows generated from an engine that has already served `start` calls. */
  function Dataset(src: Source, start: nat, n: nat): (rows: seq<Row>)
    ensures |rows| == n
    ensures forall i :: 0 <= i < n ==> rows[i].path == Path && rows[i].x >= 0
  {
    seq(n, i requires 0 <= i < n => DrawnRow(src, start + 3 * i))
  }

  /** The random engine, which every distribution call advances in place. */
  class Device {
    const source: Source
    var drawn: nat

    constructor (source: Source)
      ensures this.source == source && drawn == 0
    {
      this.source := source;
      drawn := 0;
    }

    method NextInt() returns (v: NonNegInt32)
      modifies this
      ensures v == source.ints(old(drawn)) && drawn == old(drawn) + 1
    {
      v := source.ints(drawn);
      drawn := drawn + 1;
    }

    method NextDouble() returns (v: Double)
      modifies this
      ensures v == source.doubles(old(drawn)) && drawn == old(drawn) + 1
    {
      v := source.doubles(drawn);
      drawn := drawn + 1;
    }

    method NextFloat() returns (v: Float)
      modifies this
      ensures v == source.floats(old(drawn)) && drawn == old(drawn) + 1
    {
      v := source.floats(drawn);
      drawn := drawn + 1;
    }
  }

  /** Builds the dataset by appending N rows, each drawn from `device`. */
  method GenerateData(device: Device) returns (data: seq<Row>)
    modifies device
    ensures data == Dataset(device.source, old(device.drawn), N)
    ensures device.drawn == old(device.drawn) + 3 * N
  {
    data := [];
    var i := 0;
    while i < N
      invariant i <= N
      invariant device.drawn == old(device.drawn) + 3 * i
      invariant data == Dataset(device.source, old(device.drawn), i)
    {
      var x := device.NextInt();
      var y := device.NextDouble();
      var z := device.NextFloat();
      data := data + [Row(Path, x, y, z)];
      i := i + 1;
    }
  }
}
