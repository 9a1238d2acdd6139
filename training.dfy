/**
 * The training facade's orchestration decisions: how large a corpus may be to be cleaned by
 * the parallel copy process, how the corpora are routed between the parallel and the
 * serialized process, how the deduplication Bloom filter is sized, and which partitions the
 * preprocessing pipeline writes to.
 *
 * The JVM's memory limit, corpus file sizes and line counts are inputs. The copy processes,
 * output factories, Bloom filter and partitions are values recording how they were configured.
 */
module Training {

  import opened Wrappers

  // ---------------------------------------------------------------------------------------
  // Java `long`

  const LongMin: int := -0x8000_0000_0000_0000
  const LongMax: int := 0x7FFF_FFFF_FFFF_FFFF
  const Two64: int := 0x1_0000_0000_0000_0000

  type Long = x: int | LongMin <= x <= LongMax

  /** Java's `+` on `long`: the exact sum, wrapped into range modulo 2^64. */
  function WrapLong(x: int): Long {
    (x - LongMin) % Two64 + LongMin
  }

  lemma WrapInRange(x: int)
    requires LongMin <= x <= LongMax
    ensures WrapLong(x) == x
  {
  }

  /** Wrapping once per addition gives the same as wrapping the exact total once. */
  lemma WrapAdd(a: int, b: int)
    ensures WrapLong(WrapLong(a) + b) == WrapLong(a + b)
  {
    var q := (a - LongMin) / Two64;
    assert WrapLong(a) == a - Two64 * q;
    ModShift(a + b - LongMin, q);
  }

  lemma ModShift(y: int, q: int)
    ensures (y - Two64 * q) % Two64 == y % Two64
  {
    var r1 := y % Two64;
    var r2 := (y - Two64 * q) % Two64;
    var k := y / Two64 - q - (y - Two64 * q) / Two64;
    assert Two64 * k == r2 - r1;
  }

  /** Java's `x / 10` on `long`: truncates toward zero. */
  function DivTen(x: int): (q: int)
    ensures x >= 0 ==> 0 <= 10 * q <= x < 10 * q + 10
    ensures x < 0 ==> 10 * q - 10 < x <= 10 * q <= 0
  {
    if x >= 0 then x / 10 else -((-x) / 10)
  }

  // ---------------------------------------------------------------------------------------
  // the size threshold

  const DefaultPartitionSize: int := 2000
  /** 2 GiB. */
  const DefaultMaxFileSizeParallelCleaning: Long := 2 * 1024 * 1024 * 1024

  /**
   * Corpora smaller than this are cleaned by the parallel process: a tenth of the JVM's
   * memory limit, or 2 GiB when the limit is `Long.MAX_VALUE` (no limit).
   */
  function SizeThreshold(maxMemory: Long): (t: Long)
    ensures maxMemory == LongMax ==> t == 2 * 1024 * 1024 * 1024
    ensures 0 <= maxMemory < LongMax ==> 0 <= 10 * t <= maxMemory < 10 * t + 10
    ensures maxMemory < 0 ==> 10 * t - 10 < maxMemory <= 10 * t <= 0
  {
    if maxMemory < LongMax then DivTen(maxMemory) else DefaultMaxFileSizeParallelCleaning
  }

  // ---------------------------------------------------------------------------------------
  // corpora, output factories and copy processes

  datatype Corpus = Multilingual(name: string) | Monolingual(name: string)

  /** What a copy process copies: a corpus wrapped for cleaning, or the corpus as it is. */
  datatype Entry = Cleaned(corpus: Corpus) | Plain(corpus: Corpus)

  datatype BloomFilter = BloomFilter(expectedLines: Long)

  /** Where a copy process writes each corpus. */
  datatype OutputFactory =
    | Rename(directory: string)                     // same corpus name, another directory
    | LazyWriter(inner: OutputFactory)              // opens the inner output on first write
    | BloomFilterOutput(filter: BloomFilter, lengthThreshold: int, directory: string)
    | Supplied(name: string)                        // a factory handed in by the caller

  /** A copy process as it was when it ran. */
  datatype Batch = Batch(output: OutputFactory, ioThreads: Option<int>, corpora: seq<Entry>)

  /** `BatchCopyProcess`: corpora are added, then copied in one run. */
  class CopyProcess {
    const output: OutputFactory
    /** `None` while the process's own default number of I/O threads is in force. */
    var ioThreads: Option<int>
    var corpora: seq<Entry>

    constructor(output: OutputFactory)
      ensures this.output == output && ioThreads == None && corpora == []
    {
      this.output := output;
      ioThreads := None;
      corpora := [];
    }

    function Snapshot(): Batch
      reads this
    {
      Batch(output, ioThreads, corpora)
    }

    method SetIoThreads(n: int)
      modifies this
      ensures ioThreads == Some(n) && corpora == old(corpora)
    {
      ioThreads := Some(n);
    }

    method Add(e: Entry)
      modifies this
      ensures corpora == old(corpora) + [e] && ioThreads == old(ioThreads)
    {
      corpora := corpora + [e];
    }

    /** Copying is I/O; `journal` records which processes ran, in order, and how. */
    method Run(ghost journal: seq<Batch>) returns (ghost after: seq<Batch>)
      ensures after == journal + [Snapshot()]
    {
      after := journal + [Snapshot()];
    }
  }

  // ---------------------------------------------------------------------------------------
  // routing

  datatype Lanes = Lanes(parallel: seq<Entry>, serialized: seq<Entry>)

  /** Every corpus, wrapped for cleaning, in order. */
  function CleanAll(corpora: seq<Corpus>): (r: seq<Entry>)
    ensures |r| == |corpora| && forall i :: 0 <= i < |r| ==> r[i] == Cleaned(corpora[i])
  {
    if corpora == [] then [] else CleanAll(corpora[..|corpora| - 1]) + [Cleaned(corpora[|corpora| - 1])]
  }

  /** The corpora each process receives: the parallel one those smaller than the threshold. */
  function Route(corpora: seq<Corpus>, fileSize: Corpus -> Long, threshold: Long): Lanes
    decreases |corpora|
  {
    if corpora == [] then Lanes([], [])
    else
      var lanes := Route(corpora[..|corpora| - 1], fileSize, threshold);
      var c := corpora[|corpora| - 1];
      if fileSize(c) < threshold then lanes.(parallel := lanes.parallel + [Cleaned(c)])
      else lanes.(serialized := lanes.serialized + [Cleaned(c)])
  }

  /**
   * Every corpus goes to exactly one process: together the two receive each corpus once,
   * wrapped for cleaning, and a corpus goes to the parallel process iff its file is smaller
   * than the threshold (a file exactly at the threshold is serialized).
   */
  lemma {:induction false} RoutePartitions(corpora: seq<Corpus>, fileSize: Corpus -> Long, threshold: Long)
    ensures var lanes := Route(corpora, fileSize, threshold);
      && multiset(lanes.parallel) + multiset(lanes.serialized) == multiset(CleanAll(corpora))
      && (forall e :: e in lanes.parallel ==> e.Cleaned? && fileSize(e.corpus) < threshold)
      && (forall e :: e in lanes.serialized ==> e.Cleaned? && fileSize(e.corpus) >= threshold)
    decreases |corpora|
  {
    if corpora != [] {
      var init := corpora[..|corpora| - 1];
      RoutePartitions(init, fileSize, threshold);
      assert CleanAll(corpora) == CleanAll(init) + [Cleaned(corpora[|corpora| - 1])];
    }
  }

  /** A corpus is given to the parallel process iff it is listed and smaller than the threshold. */
  lemma RouteMembership(corpora: seq<Corpus>, fileSize: Corpus -> Long, threshold: Long, c: Corpus)
    ensures var lanes := Route(corpora, fileSize, threshold);
      && (Cleaned(c) in lanes.parallel <==> c in corpora && fileSize(c) < threshold)
      && (Cleaned(c) in lanes.serialized <==> c in corpora && fileSize(c) >= threshold)
  {
    RoutePartitions(corpora, fileSize, threshold);
    var lanes := Route(corpora, fileSize, threshold);
    assert Cleaned(c) in CleanAll(corpora) <==> c in corpora by {
      if c in corpora {
        var i :| 0 <= i < |corpora| && corpora[i] == c;
        assert CleanAll(corpora)[i] == Cleaned(c);
      }
    }
    assert Cleaned(c) in multiset(CleanAll(corpora)) <==>
           Cleaned(c) in multiset(lanes.parallel) || Cleaned(c) in multiset(lanes.serialized);
  }

  /**
   * Routing two lists one after the other is routing their concatenation: each process gets
   * its corpora in input order, those of the first list before those of the second.
   */
  lemma {:induction false} RouteAppend(a: seq<Corpus>, b: seq<Corpus>, fileSize: Corpus -> Long, threshold: Long)
    ensures var ra := Route(a, fileSize, threshold);
            var rb := Route(b, fileSize, threshold);
            Route(a + b, fileSize, threshold) == Lanes(ra.parallel + rb.parallel, ra.serialized + rb.serialized)
    decreases |b|
  {
    if b == [] {
      assert a + b == a;
    } else {
      var init := b[..|b| - 1];
      RouteAppend(a, init, fileSize, threshold);
      assert (a + b)[..|a + b| - 1] == a + init;
      assert (a + b)[|a + b| - 1] == b[|b| - 1];
    }
  }

  /** A null list contributes nothing. */
  function Given(corpora: Option<seq<Corpus>>): seq<Corpus> {
    if corpora.Some? then corpora.value else []
  }

  /**
   * The loop of the four-argument `clean` over one list: measure each corpus's file, wrap it
   * for cleaning and add it to the process its size picks.
   */
  method Distribute(corpora: seq<Corpus>, fileSize: Corpus -> Long, threshold: Long,
                    parallel: CopyProcess, serialized: CopyProcess)
    requires parallel != serialized
    modifies parallel, serialized
    ensures parallel.corpora == old(parallel.corpora) + Route(corpora, fileSize, threshold).parallel
    ensures serialized.corpora == old(serialized.corpora) + Route(corpora, fileSize, threshold).serialized
    ensures parallel.ioThreads == old(parallel.ioThreads) && serialized.ioThreads == old(serialized.ioThreads)
  {
    var i := 0;
    while i < |corpora|
      invariant 0 <= i <= |corpora|
      invariant parallel.corpora == old(parallel.corpora) + Route(corpora[..i], fileSize, threshold).parallel
      invariant serialized.corpora == old(serialized.corpora) + Route(corpora[..i], fileSize, threshold).serialized
      invariant parallel.ioThreads == old(parallel.ioThreads) && serialized.ioThreads == old(serialized.ioThreads)
    {
      var corpus := corpora[i];
      var size := fileSize(corpus);
      assert corpora[..i + 1][..i] == corpora[..i];
      if size < threshold {
        parallel.Add(Cleaned(corpus));
      } else {
        serialized.Add(Cleaned(corpus));
      }
      i := i + 1;
    }
    assert corpora[..i] == corpora;
  }

  // ---------------------------------------------------------------------------------------
  // clean

  predicate AllMultilingual(corpora: seq<Corpus>) {
    forall c :: c in corpora ==> c.Multilingual?
  }

  predicate AllMonolingual(corpora: seq<Corpus>) {
    forall c :: c in corpora ==> c.Monolingual?
  }

  /**
   * The four-argument `clean`: both processes write through a lazy writer over `factory`; the
   * serialized one uses one I/O thread; multilingual corpora are routed before monolingual
   * ones; then the parallel process runs, then the serialized one.
   */
  method Clean(multilingual: Option<seq<Corpus>>, monolingual: Option<seq<Corpus>>,
               factory: OutputFactory, maxMemory: Long, fileSize: Corpus -> Long)
    returns (parallel: CopyProcess, serialized: CopyProcess, ghost runs: seq<Batch>)
    requires AllMultilingual(Given(multilingual)) && AllMonolingual(Given(monolingual))
    ensures fresh(parallel) && fresh(serialized) && parallel != serialized
    ensures parallel.output == LazyWriter(factory) && serialized.output == LazyWriter(factory)
    ensures parallel.ioThreads == None && serialized.ioThreads == Some(1)
    ensures var lanes := Route(Given(multilingual) + Given(monolingual), fileSize, SizeThreshold(maxMemory));
      parallel.corpora == lanes.parallel && serialized.corpora == lanes.serialized
    ensures runs == [parallel.Snapshot(), serialized.Snapshot()]
  {
    var sizeThreshold: Long := DefaultMaxFileSizeParallelCleaning;
    if maxMemory < LongMax {
      sizeThreshold := DivTen(maxMemory);
    }

    parallel := new CopyProcess(LazyWriter(factory));
    serialized := new CopyProcess(LazyWriter(factory));
    serialized.SetIoThreads(1);

    assert sizeThreshold == SizeThreshold(maxMemory);
    ghost var first := Route(Given(multilingual), fileSize, sizeThreshold);
    ghost var second := Route(Given(monolingual), fileSize, sizeThreshold);

    if multilingual.Some? {
      Distribute(multilingual.value, fileSize, sizeThreshold, parallel, serialized);
    }
    assert parallel.corpora == first.parallel && serialized.corpora == first.serialized;
    if monolingual.Some? {
      Distribute(monolingual.value, fileSize, sizeThreshold, parallel, serialized);
    }
    assert parallel.corpora == first.parallel + second.parallel;
    assert serialized.corpora == first.serialized + second.serialized;
    RouteAppend(Given(multilingual), Given(monolingual), fileSize, sizeThreshold);

    runs := parallel.Run([]);
    runs := serialized.Run(runs);
  }

  /** `cleanMonolingual(corpora, outputDirectory, options)`. */
  method CleanMonolingual(corpora: seq<Corpus>, outputDirectory: string, maxMemory: Long, fileSize: Corpus -> Long)
    returns (parallel: CopyProcess, serialized: CopyProcess, ghost runs: seq<Batch>)
    requires AllMonolingual(corpora)
    ensures fresh(parallel) && fresh(serialized) && parallel != serialized
    ensures parallel.output == LazyWriter(Rename(outputDirectory)) && serialized.output == parallel.output
    ensures parallel.ioThreads == None && serialized.ioThreads == Some(1)
    ensures var lanes := Route(corpora, fileSize, SizeThreshold(maxMemory));
      parallel.corpora == lanes.parallel && serialized.corpora == lanes.serialized
    ensures runs == [parallel.Snapshot(), serialized.Snapshot()]
  {
    parallel, serialized, runs := Clean(None, Some(corpora), Rename(outputDirectory), maxMemory, fileSize);
    assert [] + corpora == corpora;
  }

  /** `clean(corpora, outputDirectory, options)` on multilingual corpora. */
  method CleanToDirectory(corpora: seq<Corpus>, outputDirectory: string, maxMemory: Long, fileSize: Corpus -> Long)
    returns (parallel: CopyProcess, serialized: CopyProcess, ghost runs: seq<Batch>)
    requires AllMultilingual(corpora)
    ensures fresh(parallel) && fresh(serialized) && parallel != serialized
    ensures parallel.output == LazyWriter(Rename(outputDirectory)) && serialized.output == parallel.output
    ensures parallel.ioThreads == None && serialized.ioThreads == Some(1)
    ensures var lanes := Route(corpora, fileSize, SizeThreshold(maxMemory));
      parallel.corpora == lanes.parallel && serialized.corpora == lanes.serialized
    ensures runs == [parallel.Snapshot(), serialized.Snapshot()]
  {
    parallel, serialized, runs := Clean(Some(corpora), None, Rename(outputDirectory), maxMemory, fileSize);
    assert corpora + [] == corpora;
  }

  /** `clean(corpora, options, factory)` on multilingual corpora. */
  method CleanWithFactory(corpora: seq<Corpus>, factory: OutputFactory, maxMemory: Long, fileSize: Corpus -> Long)
    returns (parallel: CopyProcess, serialized: CopyProcess, ghost runs: seq<Batch>)
    requires AllMultilingual(corpora)
    ensures fresh(parallel) && fresh(serialized) && parallel != serialized
    ensures parallel.output == LazyWriter(factory) && serialized.output == parallel.output
    ensures parallel.ioThreads == None && serialized.ioThreads == Some(1)
    ensures var lanes := Route(corpora, fileSize, SizeThreshold(maxMemory));
      parallel.corpora == lanes.parallel && serialized.corpora == lanes.serialized
    ensures runs == [parallel.Snapshot(), serialized.Snapshot()]
  {
    parallel, serialized, runs := Clean(Some(corpora), None, factory, maxMemory, fileSize);
    assert corpora + [] == corpora;
  }

  // ---------------------------------------------------------------------------------------
  // deduplicate

  /** The exact total of the line counts. */
  function Sum(counts: seq<Long>): int
    decreases |counts|
  {
    if counts == [] then 0 else Sum(counts[..|counts| - 1]) + counts[|counts| - 1]
  }

  /**
   * The `lines += count` loop: the total in Java `long` arithmetic, which is the exact total
   * whenever that fits in a `long`.
   */
  method TotalLines(counts: seq<Long>) returns (lines: Long)
    ensures lines == WrapLong(Sum(counts))
    ensures LongMin <= Sum(counts) <= LongMax ==> lines == Sum(counts)
  {
    lines := 0;
    var i := 0;
    while i < |counts|
      invariant 0 <= i <= |counts|
      invariant lines == WrapLong(Sum(counts[..i]))
    {
      assert counts[..i + 1][..i] == counts[..i];
      WrapAdd(Sum(counts[..i]), counts[i]);
      lines := WrapLong(lines + counts[i]);
      i := i + 1;
    }
    assert counts[..i] == counts;
    if LongMin <= Sum(counts) <= LongMax {
      WrapInRange(Sum(counts));
    }
  }

  /**
   * The body shared by `deduplicate` and `deduplicateMonolingual`: a Bloom filter sized with
   * the total line count, and one copy process writing every corpus, unwrapped and in order,
   * through a lazy writer over the Bloom-filter output.
   */
  method Dedup(corpora: seq<Corpus>, outputDirectory: string, lengthThreshold: int, lineCounts: seq<Long>)
    returns (process: CopyProcess, bloomFilter: BloomFilter, ghost runs: seq<Batch>)
    ensures bloomFilter == BloomFilter(WrapLong(Sum(lineCounts)))
    ensures fresh(process) && process.ioThreads == None
    ensures process.output == LazyWriter(BloomFilterOutput(bloomFilter, lengthThreshold, outputDirectory))
    ensures |process.corpora| == |corpora|
    ensures forall i :: 0 <= i < |corpora| ==> process.corpora[i] == Plain(corpora[i])
    ensures runs == [process.Snapshot()]
  {
    var lines := TotalLines(lineCounts);
    bloomFilter := BloomFilter(lines);
    process := new CopyProcess(LazyWriter(BloomFilterOutput(bloomFilter, lengthThreshold, outputDirectory)));
    var i := 0;
    while i < |corpora|
      invariant 0 <= i <= |corpora|
      invariant process.ioThreads == None
      invariant |process.corpora| == i
      invariant forall j :: 0 <= j < i ==> process.corpora[j] == Plain(corpora[j])
    {
      process.Add(Plain(corpora[i]));
      i := i + 1;
    }
    runs := process.Run([]);
  }

  /** `deduplicate(corpora, outputDirectory, lengthThreshold)` on multilingual corpora. */
  method Deduplicate(corpora: seq<Corpus>, outputDirectory: string, lengthThreshold: int, lineCounts: seq<Long>)
    returns (process: CopyProcess, bloomFilter: BloomFilter, ghost runs: seq<Batch>)
    requires AllMultilingual(corpora)
    ensures bloomFilter == BloomFilter(WrapLong(Sum(lineCounts)))
    ensures fresh(process) && process.ioThreads == None
    ensures process.output == LazyWriter(BloomFilterOutput(bloomFilter, lengthThreshold, outputDirectory))
    ensures |process.corpora| == |corpora|
    ensures forall i :: 0 <= i < |corpora| ==> process.corpora[i] == Plain(corpora[i])
    ensures runs == [process.Snapshot()]
  {
    process, bloomFilter, runs := Dedup(corpora, outputDirectory, lengthThreshold, lineCounts);
  }

  /** `deduplicateMonolingual(corpora, outputDirectory, lengthThreshold)`. */
  method DeduplicateMonolingual(corpora: seq<Corpus>, outputDirectory: string, lengthThreshold: int,
                                lineCounts: seq<Long>)
    returns (process: CopyProcess, bloomFilter: BloomFilter, ghost runs: seq<Batch>)
    requires AllMonolingual(corpora)
    ensures bloomFilter == BloomFilter(WrapLong(Sum(lineCounts)))
    ensures fresh(process) && process.ioThreads == None
    ensures process.output == LazyWriter(BloomFilterOutput(bloomFilter, lengthThreshold, outputDirectory))
    ensures |process.corpora| == |corpora|
    ensures forall i :: 0 <= i < |corpora| ==> process.corpora[i] == Plain(corpora[i])
    ensures runs == [process.Snapshot()]
  {
    process, bloomFilter, runs := Dedup(corpora, outputDirectory, lengthThreshold, lineCounts);
  }

  // ---------------------------------------------------------------------------------------
  // preprocess

  datatype LanguageDirection = LanguageDirection(source: string, target: string)

  /** `TrainingOptions`: `None` for a partition that is not configured (Java's null). */
  datatype TrainingOptions = TrainingOptions(
    partitionSize: int,
    developmentPartition: Option<string>,
    testPartition: Option<string>)

  function DefaultTrainingOptions(): (o: TrainingOptions)
    ensures o.partitionSize == 2000 && o.developmentPartition.None? && o.testPartition.None?
  {
    TrainingOptions(DefaultPartitionSize, None, None)
  }

  /** A `CorporaPartition`: its directory and, for a capped partition, its size. */
  datatype Partition = Partition(directory: string, capacity: Option<int>)

  /**
   * The extra partitions `preprocess` adds: the development partition, then the test
   * partition, each only when configured, each capped at the configured partition size.
   */
  function ExtraPartitions(options: TrainingOptions): (r: seq<Partition>)
    ensures |r| == (if options.developmentPartition.Some? then 1 else 0) + (if options.testPartition.Some? then 1 else 0)
    ensures forall p :: p in r ==> p.capacity == Some(options.partitionSize)
    ensures forall p :: p in r ==> Some(p.directory) == options.developmentPartition || Some(p.directory) == options.testPartition
    ensures options.developmentPartition.Some? ==> r[0].directory == options.developmentPartition.value
    ensures options.testPartition.Some? ==> r[|r| - 1].directory == options.testPartition.value
  {
    var size := Some(options.partitionSize);
    (if options.developmentPartition.Some? then [Partition(options.developmentPartition.value, size)] else []) +
    (if options.testPartition.Some? then [Partition(options.testPartition.value, size)] else [])
  }

  /** One `process(corpora)` call on a pipeline, with the partitions it had at the time. */
  datatype Job = Job(corpora: seq<Corpus>, mainPartition: Partition, extraPartitions: seq<Partition>)

  /** `PreprocessingPipeline`: a main partition, extra partitions added to it, and its runs. */
  class PreprocessingPipeline {
    const language: LanguageDirection
    const mainPartition: Partition
    var extraPartitions: seq<Partition>
    var jobs: seq<Job>

    constructor(language: LanguageDirection, mainPartition: Partition)
      ensures this.language == language && this.mainPartition == mainPartition
      ensures extraPartitions == [] && jobs == []
    {
      this.language := language;
      this.mainPartition := mainPartition;
      extraPartitions := [];
      jobs := [];
    }

    method AddExtraPartition(p: Partition)
      modifies this
      ensures extraPartitions == old(extraPartitions) + [p] && jobs == old(jobs)
    {
      extraPartitions := extraPartitions + [p];
    }

    method Process(corpora: seq<Corpus>)
      modifies this
      ensures extraPartitions == old(extraPartitions)
      ensures jobs == old(jobs) + [Job(corpora, mainPartition, old(extraPartitions))]
    {
      jobs := jobs + [Job(corpora, mainPartition, extraPartitions)];
    }
  }

  /** What `preprocess` does to the file system and the pipeline once the pipeline is built. */
  datatype Step = Delete(directory: string) | AddExtra(partition: Partition) | RunPipeline(corpora: seq<Corpus>)

  /** One configured extra partition: its directory is deleted, then the partition is added. */
  function ExtraSteps(directory: Option<string>, partitionSize: int): seq<Step> {
    if directory.Some? then [Delete(directory.value), AddExtra(Partition(directory.value, Some(partitionSize)))]
    else []
  }

  /**
   * The steps `preprocess` takes after building the pipeline, in order: delete the destination,
   * then for the development and the test partition (when configured) delete the directory and
   * add the partition, then run the pipeline over the corpora.
   */
  function PreprocessSteps(destFolder: string, corpora: seq<Corpus>, options: TrainingOptions): seq<Step> {
    [Delete(destFolder)]
      + ExtraSteps(options.developmentPartition, options.partitionSize)
      + ExtraSteps(options.testPartition, options.partitionSize)
      + [RunPipeline(corpora)]
  }

  /** The partitions the steps add, in order. */
  function Added(steps: seq<Step>): seq<Partition> {
    if steps == [] then []
    else if steps[0].AddExtra? then [steps[0].partition] + Added(steps[1..])
    else Added(steps[1..])
  }

  lemma {:induction false} AddedAppend(a: seq<Step>, b: seq<Step>)
    ensures Added(a + b) == Added(a) + Added(b)
    decreases |a|
  {
    if a == [] {
      assert a + b == b;
    } else {
      assert (a + b)[0] == a[0] && (a + b)[1..] == a[1..] + b;
      AddedAppend(a[1..], b);
    }
  }

  /**
   * The destination is deleted first and the pipeline runs last, exactly once. Every extra
   * partition is added right after its directory is deleted, and the partitions added are
   * `ExtraPartitions`, in that order.
   */
  lemma PreprocessOrder(destFolder: string, corpora: seq<Corpus>, options: TrainingOptions)
    ensures var steps := PreprocessSteps(destFolder, corpora, options);
      && steps[0] == Delete(destFolder)
      && steps[|steps| - 1] == RunPipeline(corpora)
      && (forall i :: 0 <= i < |steps| - 1 ==> !steps[i].RunPipeline?)
      && (forall i :: 0 <= i < |steps| && steps[i].AddExtra? ==> 0 < i && steps[i - 1] == Delete(steps[i].partition.directory))
      && Added(steps) == ExtraPartitions(options)
  {
    var dev := ExtraSteps(options.developmentPartition, options.partitionSize);
    var test := ExtraSteps(options.testPartition, options.partitionSize);
    AddedAppend([Delete(destFolder)] + dev + test, [RunPipeline(corpora)]);
    AddedAppend([Delete(destFolder)] + dev, test);
    AddedAppend([Delete(destFolder)], dev);
    assert Added([RunPipeline(corpora)]) == [] && Added([Delete(destFolder)]) == [];
    if options.developmentPartition.Some? {
      assert Added(dev) == [Partition(options.developmentPartition.value, Some(options.partitionSize))] by {
        assert dev[1..][1..] == [];
      }
    }
    if options.testPartition.Some? {
      assert Added(test) == [Partition(options.testPartition.value, Some(options.partitionSize))] by {
        assert test[1..][1..] == [];
      }
    }
  }

  /**
   * `preprocess(language, corpora, destFolder, options)`: an uncapped main partition in
   * `destFolder`, the configured extra partitions, then one run over the corpora. `steps` records
   * the deletions interleaved with the partitions added and the run.
   */
  method Preprocess(language: LanguageDirection, corpora: seq<Corpus>, destFolder: string, options: TrainingOptions)
    returns (pipeline: PreprocessingPipeline, ghost steps: seq<Step>)
    ensures fresh(pipeline) && pipeline.language == language
    ensures pipeline.mainPartition == Partition(destFolder, None)
    ensures pipeline.extraPartitions == ExtraPartitions(options)
    ensures pipeline.jobs == [Job(corpora, Partition(destFolder, None), ExtraPartitions(options))]
    ensures steps == PreprocessSteps(destFolder, corpora, options)
  {
    var mainPartition := Partition(destFolder, None);
    pipeline := new PreprocessingPipeline(language, mainPartition);
    steps := [Delete(destFolder)];

    if options.developmentPartition.Some? {
      steps := steps + [Delete(options.developmentPartition.value)];
      var partition := Partition(options.developmentPartition.value, Some(options.partitionSize));
      pipeline.AddExtraPartition(partition);
      steps := steps + [AddExtra(partition)];
    }
    if options.testPartition.Some? {
      steps := steps + [Delete(options.testPartition.value)];
      var partition := Partition(options.testPartition.value, Some(options.partitionSize));
      pipeline.AddExtraPartition(partition);
      steps := steps + [AddExtra(partition)];
    }

    pipeline.Process(corpora);
    steps := steps + [RunPipeline(corpora)];
  }

  /** `preprocess(language, corpora, destFolder)`: the default options, so no extra partitions. */
  method PreprocessWithDefaults(language: LanguageDirection, corpora: seq<Corpus>, destFolder: string)
    returns (pipeline: PreprocessingPipeline, ghost steps: seq<Step>)
    ensures fresh(pipeline) && pipeline.language == language
    ensures pipeline.mainPartition == Partition(destFolder, None) && pipeline.extraPartitions == []
    ensures pipeline.jobs == [Job(corpora, Partition(destFolder, None), [])]
    ensures steps == [Delete(destFolder), RunPipeline(corpora)]
  {
    pipeline, steps := Preprocess(language, corpora, destFolder, DefaultTrainingOptions());
  }
}
