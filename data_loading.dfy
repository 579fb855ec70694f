/**
 * The data-loading configuration: a mutable Builder with documented defaults
 * and one setter per field, and the immutable configuration it builds by
 * copying its eight fields.
 */
module DataLoading {

  /** Java's `long`: a signed 64-bit integer. */
  type Long = x: int | -0x8000_0000_0000_0000 <= x < 0x8000_0000_0000_0000

  /** Java's `int`: a signed 32-bit integer. */
  type Int = x: int | -0x8000_0000 <= x < 0x8000_0000

  /** A sampler of indices (Sampler<Long>) or of batches of indices (Sampler<List<Long>>); opaque here. */
  class Sampler<T> {
    constructor () {}
  }

  /** The batchifier that stacks samples into a batch; opaque here. */
  class Batchifier {
    constructor () {}
  }

  /** The eight settings; a null reference stands for an unset sampler, batch sampler or batchifier. */
  datatype Settings = Settings(
    batchSize: Long,
    shuffle: bool,
    sampler: Sampler?<Long>,
    batchSampler: Sampler?<seq<Long>>,
    numWorkers: Int,
    batchifier: Batchifier?,
    pinMemory: bool,
    dropLast: bool)

  /** What a fresh Builder holds. */
  const Defaults := Settings(1, false, null, null, 0, null, false, false)

  class Builder {
    var batchSize: Long
    var shuffle: bool
    var sampler: Sampler?<Long>
    var batchSampler: Sampler?<seq<Long>>
    var numWorkers: Int
    var batchifier: Batchifier?
    var pinMemory: bool
    var dropLast: bool

    /** The builder's fields, as one value. */
    function Current(): Settings
      reads this
    {
      Settings(batchSize, shuffle, sampler, batchSampler, numWorkers, batchifier, pinMemory, dropLast)
    }

    /** A builder holding the defaults: batch size 1, no shuffling, no workers, nothing pinned or dropped, nothing set. */
    constructor ()
      ensures Current() == Defaults
    {
      batchSize := 1;
      shuffle := false;
      sampler := null;
      batchSampler := null;
      numWorkers := 0;
      batchifier := null;
      pinMemory := false;
      dropLast := false;
    }

    method SetBatchSize(v: Long) returns (r: Builder)
      modifies this
      ensures r == this && Current() == old(Current()).(batchSize := v)
    {
      batchSize := v;
      return this;
    }

    method SetShuffle(v: bool) returns (r: Builder)
      modifies this
      ensures r == this && Current() == old(Current()).(shuffle := v)
    {
      shuffle := v;
      return this;
    }

    method SetSampler(v: Sampler?<Long>) returns (r: Builder)
      modifies this
      ensures r == this && Current() == old(Current()).(sampler := v)
    {
      sampler := v;
      return this;
    }

    method SetBatchSampler(v: Sampler?<seq<Long>>) returns (r: Builder)
      modifies this
      ensures r == this && Current() == old(Current()).(batchSampler := v)
    {
      batchSampler := v;
      return this;
    }

    method SetNumWorkers(v: Int) returns (r: Builder)
      modifies this
      ensures r == this && Current() == old(Current()).(numWorkers := v)
    {
      numWorkers := v;
      return this;
    }

    method SetBatchifier(v: Batchifier?) returns (r: Builder)
      modifies this
      ensures r == this && Current() == old(Current()).(batchifier := v)
    {
      batchifier := v;
      return this;
    }

    method SetPinMemory(v: bool) returns (r: Builder)
      modifies this
      ensures r == this && Current() == old(Current()).(pinMemory := v)
    {
      pinMemory := v;
      return this;
    }

    method SetDropLast(v: bool) returns (r: Builder)
      modifies this
      ensures r == this && Current() == old(Current()).(dropLast := v)
    {
      dropLast := v;
      return this;
    }

    /** A new configuration holding the builder's present settings, unchecked; the builder is not changed. */
    method Build() returns (c: DataLoadingConfiguration)
      ensures fresh(c) && c.Get() == Current()
    {
      c := new DataLoadingConfiguration(this);
    }
  }

  /** The built configuration: eight fields, set once by the constructor and read by the getters. */
  class DataLoadingConfiguration {
    const batchSize: Long
    const shuffle: bool
    const sampler: Sampler?<Long>
    const batchSampler: Sampler?<seq<Long>>
    const numWorkers: Int
    const batchifier: Batchifier?
    const pinMemory: bool
    const dropLast: bool

    /** The eight getters, as one value. */
    function Get(): Settings {
      Settings(batchSize, shuffle, sampler, batchSampler, numWorkers, batchifier, pinMemory, dropLast)
    }

    /** Copies each of the builder's fields. */
    constructor (b: Builder)
      ensures Get() == b.Current()
    {
      batchSize := b.batchSize;
      shuffle := b.shuffle;
      sampler := b.sampler;
      batchSampler := b.batchSampler;
      numWorkers := b.numWorkers;
      batchifier := b.batchifier;
      pinMemory := b.pinMemory;
      dropLast := b.dropLast;
    }
  }

  // ---------------------------------------------------------------------
  // Uses of the builder.

  /** Building straight away yields the defaults. */
  method BuildDefaults() returns (s: Settings)
    ensures s.batchSize == 1 && !s.shuffle && s.numWorkers == 0 && !s.pinMemory && !s.dropLast
    ensures s.sampler == null && s.batchSampler == null && s.batchifier == null
  {
    var b := new Builder();
    var c := b.Build();
    s := c.Get();
  }

  /** Setting a field twice keeps the second value; chained setters act on the one builder. */
  method LastWriteWins() returns (s: Settings)
    ensures s == Defaults.(batchSize := 64, numWorkers := 8, dropLast := true)
  {
    var b := new Builder();
    var b1 := b.SetBatchSize(32);
    var b2 := b1.SetNumWorkers(4);
    var b3 := b2.SetBatchSize(64);
    var b4 := b3.SetDropLast(true);
    var b5 := b4.SetNumWorkers(8);
    var c := b5.Build();
    s := c.Get();
  }

  /** Changing the builder after build() leaves the built configuration as it was. */
  method BuiltIsACopy() returns (built: Settings, later: Settings, rebuilt: Settings)
    ensures built == later == Defaults.(batchSize := 32, pinMemory := true)
    ensures rebuilt == Defaults.(batchSize := 16, pinMemory := true)
  {
    var b := new Builder();
    var _ := b.SetBatchSize(32);
    var _ := b.SetPinMemory(true);
    var c := b.Build();
    built := c.Get();
    var _ := b.SetBatchSize(16);
    later := c.Get();
    var c2 := b.Build();
    rebuilt := c2.Get();
  }

  /** build() checks nothing: shuffling together with an explicit sampler is kept as given. */
  method ShuffleWithSampler() returns (s: Settings, sampler: Sampler<Long>)
    ensures s == Defaults.(shuffle := true, sampler := sampler)
  {
    sampler := new Sampler<Long>();
    var b := new Builder();
    var _ := b.SetShuffle(true);
    var _ := b.SetSampler(sampler);
    var c := b.Build();
    s := c.Get();
  }

  /** Every setter, each once: the configuration holds all eight values. */
  method SetEverything(sampler: Sampler?<Long>, batchSampler: Sampler?<seq<Long>>, batchifier: Batchifier?)
    returns (s: Settings)
    ensures s == Settings(128, true, sampler, batchSampler, 2, batchifier, true, true)
  {
    var b := new Builder();
    var _ := b.SetBatchSize(128);
    var _ := b.SetShuffle(true);
    var _ := b.SetSampler(sampler);
    var _ := b.SetBatchSampler(batchSampler);
    var _ := b.SetNumWorkers(2);
    var _ := b.SetBatchifier(batchifier);
    var _ := b.SetPinMemory(true);
    var _ := b.SetDropLast(true);
    var c := b.Build();
    s := c.Get();
  }
}
