# ModernMT training and cleaning orchestration, modelled in Dafny

This project models three sequential pieces of ModernMT's Java code and proves properties of them.

- **The multilingual filter adapter** (`MultilingualCorpusFilterAdapter`). It lifts a monolingual
  corpus filter to sentence pairs. It keeps one filter instance per language, which a factory
  creates the first time that language is seen. A pair is accepted when the source-language filter
  accepts the source text AND the target-language filter accepts the target text; the target is
  not asked when the source rejects. When the filter type has an initializer, the adapter hands
  out pair initializers. Each one:
  - opens one sub-initializer per language (`onBegin` when it is created);
  - feeds it one line per side of each pair;
  - closes all of them at `onEnd`.

  `clear` is sent to every filter.
- **The preprocessor's batch task** (`Preprocessor.BatchTask`). An array is read through a read
  cursor, and the processed sentences are written into a result array through a write cursor.
  The model also covers how `process` picks the tokenizing or the non-tokenizing pipeline.
- **The training facade's decisions** (`TrainingFacade`):
  - the size threshold for parallel cleaning;
  - which copy process each corpus is routed to, and the order the processes run in;
  - the Bloom filter size used in deduplication, taken from the total line count;
  - the partitions `preprocess` writes to.

Filter instances are ids handed out by a counter. Id 0 is the probe that the adapter's
constructor makes, and it is never stored. The factory's `create` and the filter and
sub-initializer calls `accept`, `clear`, `onBegin`, `onLine` and `onEnd` are recorded in a ghost
log; the `getInitializer` calls on filters are not (see "## Left out"):
- `Probe`, `Create`, `Accept` and `Clear` go in the adapter's log;
- `Begin`, `Line` and `End` go in each pair initializer's trace.

The call-order rules are a recursive predicate over that log: an instance is opened once, and
before any other call reaches it.

Inputs from the environment are parameters:
- the JVM's memory limit, each corpus's file size and the per-corpus line counts;
- the answer each filter gives (`decide`);
- what a pipeline turns a string into (`apply`).

Java `long` is a subset type of `int`. The code's truncating `/ 10` and wrapping `+` are
written out explicitly.

Files:
- `wrappers.dfy` holds `Option`.
- `cleaning.dfy` holds module `Cleaning`, the adapter and its pair initializer. Each has a pure
  state function (`Obtain`, `AcceptPair`, `ClearAll`, `Feed`, `EndAll`) that its methods are
  proved against.
- `preprocessing.dfy` holds module `Preprocessing`.
- `training.dfy` holds module `Training`.

## Model

Source paths, abbreviated:
- `MultilingualCorpusFilterAdapter.java` = `src/textprocessing/src/main/java/eu/modernmt/cleaning/MultilingualCorpusFilterAdapter.java`
- `Preprocessor.java` = `src/TextProcessing/src/main/java/eu/modernmt/processing/Preprocessor.java`
- `TrainingFacade.java` = `src/core/src/main/java/eu/modernmt/facade/TrainingFacade.java`

The table below gives the full paths.

| member | source | states |
|---|---|---|
| Cleaning.MultilingualCorpusFilterAdapter.constructor | src/textprocessing/src/main/java/eu/modernmt/cleaning/MultilingualCorpusFilterAdapter.java:31-34 | One probe instance is made. Whether it had an initializer is remembered. The filter map starts empty. |
| Cleaning.InitialGood | src/textprocessing/src/main/java/eu/modernmt/cleaning/MultilingualCorpusFilterAdapter.java:19-34 | The state after construction satisfies the adapter invariant. The probe holds id 0 and is never in the map. Every stored id is above it. |
| Cleaning.CreateGood | src/textprocessing/src/main/java/eu/modernmt/cleaning/MultilingualCorpusFilterAdapter.java:75 | Storing a fresh instance for an unseen language, and logging its creation, keeps the invariant. The invariant covers: distinct languages hold instances from distinct factory calls; every call reaches the instance stored for its language; every instance was created before use. |
| Cleaning.ObtainGood | src/textprocessing/src/main/java/eu/modernmt/cleaning/MultilingualCorpusFilterAdapter.java:58 | `computeIfAbsent` on the filter map reuses the stored instance for a known language and changes nothing. For an unseen language it creates exactly one new instance, which is neither the probe nor any other language's instance. The map only grows. |
| Cleaning.ObtainAsksNothing | src/textprocessing/src/main/java/eu/modernmt/cleaning/MultilingualCorpusFilterAdapter.java:75-76 | Looking up or creating a filter asks no filter for a verdict. |
| Cleaning.OpenedOnce | src/textprocessing/src/main/java/eu/modernmt/cleaning/MultilingualCorpusFilterAdapter.java:51-62 | In a well-ordered log, no language is opened twice. This holds for filter creations and for sub-initializer `onBegin`s alike. |
| Cleaning.OpenedBefore | src/textprocessing/src/main/java/eu/modernmt/cleaning/MultilingualCorpusFilterAdapter.java:57-62 | In a well-ordered log, every call appears strictly after the opening of its instance: each `accept` and `clear` after the creation, each `onLine` and `onEnd` after the `onBegin`. |
| Cleaning.AcceptPairGood | src/textprocessing/src/main/java/eu/modernmt/cleaning/MultilingualCorpusFilterAdapter.java:74-80 | `accept` keeps the adapter invariant. |
| Cleaning.AcceptPairCreates | src/textprocessing/src/main/java/eu/modernmt/cleaning/MultilingualCorpusFilterAdapter.java:75-76 | After `accept`, both languages are stored and earlier entries are unchanged. The factory is called once per previously unseen language, so a pair with equal languages makes at most one instance. |
| Cleaning.AcceptBothSides | src/textprocessing/src/main/java/eu/modernmt/cleaning/MultilingualCorpusFilterAdapter.java:78-79 | The pair is accepted iff the source language's filter accepts the source text and the target language's filter accepts the target text, both at the pair's index. |
| Cleaning.AcceptShortCircuit | src/textprocessing/src/main/java/eu/modernmt/cleaning/MultilingualCorpusFilterAdapter.java:75-79 | The `accept` calls that reach filters are the source-side call, then the target-side call only if the source accepted. The target filter is created either way. |
| Cleaning.FanoutExactlyOnce | src/textprocessing/src/main/java/eu/modernmt/cleaning/MultilingualCorpusFilterAdapter.java:84-85 | Visiting each key of a map once sends exactly one call to each stored instance and none elsewhere. |
| Cleaning.VisitAll | src/textprocessing/src/main/java/eu/modernmt/cleaning/MultilingualCorpusFilterAdapter.java:84-85 | The `for` loop over a map's values, in the map's own order: every key is visited exactly once, and the calls made are `Fanout` of that order. `clear` and `onEnd` share it. |
| Cleaning.ClearAllGood | src/textprocessing/src/main/java/eu/modernmt/cleaning/MultilingualCorpusFilterAdapter.java:83-86 | `clear` keeps the invariant. The filter map stays as it was, so its key set is unchanged. |
| Cleaning.ClearReachesEveryFilter | src/textprocessing/src/main/java/eu/modernmt/cleaning/MultilingualCorpusFilterAdapter.java:83-86 | `clear` appends exactly one `clear` per stored filter and nothing else. The map and the factory are untouched. |
| Cleaning.FeedOpened | src/textprocessing/src/main/java/eu/modernmt/cleaning/MultilingualCorpusFilterAdapter.java:51-62 | Feeding one side keeps the pair initializer's invariant. The sub-initializer of a new language is begun exactly once, at creation, before its first line; every line goes to the sub-initializer stored for its language. |
| Cleaning.FeedStores | src/textprocessing/src/main/java/eu/modernmt/cleaning/MultilingualCorpusFilterAdapter.java:51-53 | Feeding one side keeps every stored sub-initializer. A known language reuses its own; an unseen language gets the sub-initializer being created. The map gains only that language. |
| Cleaning.FeedFollowsObtain | src/textprocessing/src/main/java/eu/modernmt/cleaning/MultilingualCorpusFilterAdapter.java:57-62 | A new language's sub-initializer comes from the adapter's filter for that language, obtained through the shared filter map. Feeding keeps both invariants, and every sub-initializer still belongs to its language's filter. A known language touches neither map. |
| Cleaning.FeedLines | src/textprocessing/src/main/java/eu/modernmt/cleaning/MultilingualCorpusFilterAdapter.java:51-54 | Feeding one side adds exactly one `onLine`, carrying that side's language, text and index, to the language's sub-initializer. |
| Cleaning.PairFeedsBothSides | src/textprocessing/src/main/java/eu/modernmt/cleaning/MultilingualCorpusFilterAdapter.java:50-55 | `onPair` adds exactly two `onLine`s with the pair's index: first the source text to the source language, then the target text to the target language. |
| Cleaning.EndAllOpened | src/textprocessing/src/main/java/eu/modernmt/cleaning/MultilingualCorpusFilterAdapter.java:66-69 | `onEnd` keeps the initializer invariant and the initializer map. |
| Cleaning.EndReachesEveryInitializer | src/textprocessing/src/main/java/eu/modernmt/cleaning/MultilingualCorpusFilterAdapter.java:66-69 | `onEnd` calls `onEnd` exactly once on each sub-initializer this initializer opened, and on no other. |
| Cleaning.MultilingualCorpusFilterAdapter.FilterFor | src/textprocessing/src/main/java/eu/modernmt/cleaning/MultilingualCorpusFilterAdapter.java:75 | The new state and the returned instance are exactly those of `Obtain`. |
| Cleaning.MultilingualCorpusFilterAdapter.GetInitializer | src/textprocessing/src/main/java/eu/modernmt/cleaning/MultilingualCorpusFilterAdapter.java:37-43 | Returns null iff the probe had no initializer. Otherwise it returns a fresh initializer with an empty initializer map, which satisfies its invariant. |
| Cleaning.MultilingualCorpusFilterAdapter.Accept | src/textprocessing/src/main/java/eu/modernmt/cleaning/MultilingualCorpusFilterAdapter.java:74-80 | The new state and the verdict are exactly `AcceptPair`'s, and the invariant is kept. |
| Cleaning.MultilingualCorpusFilterAdapter.Clear | src/textprocessing/src/main/java/eu/modernmt/cleaning/MultilingualCorpusFilterAdapter.java:83-86 | It visits every key once, in the map's own order, and its new state is `ClearAll` for that order. |
| Cleaning.PairInitializer.constructor | src/textprocessing/src/main/java/eu/modernmt/cleaning/MultilingualCorpusFilterAdapter.java:41-43 | A new pair initializer has no sub-initializers and an empty trace, and satisfies its invariant. |
| Cleaning.PairInitializer.FeedSide | src/textprocessing/src/main/java/eu/modernmt/cleaning/MultilingualCorpusFilterAdapter.java:51-63 | The initializer's new state is `Feed`. The adapter's new state is `Obtain` of the language: the filter is shared with `accept`. |
| Cleaning.PairInitializer.OnPair | src/textprocessing/src/main/java/eu/modernmt/cleaning/MultilingualCorpusFilterAdapter.java:50-55 | The result is the source side fed, then the target side, on both the initializer and the adapter. |
| Cleaning.PairInitializer.OnEnd | src/textprocessing/src/main/java/eu/modernmt/cleaning/MultilingualCorpusFilterAdapter.java:66-69 | It visits every opened language once, and its new state is `EndAll` for that order. |
| Preprocessing.GetPipeline | src/TextProcessing/src/main/java/eu/modernmt/processing/Preprocessor.java:29-38 | It builds: normalizer, then tokenizer, then tag highlighter, on the given threads. The tokenizer is the language's own iff `tokenize`, and the simple tokenizer otherwise. |
| Preprocessing.Preprocessor.constructor | src/TextProcessing/src/main/java/eu/modernmt/processing/Preprocessor.java:44-47 | Holds the tokenizing and the non-tokenizing pipeline for one language and thread count. |
| Preprocessing.Preprocessor.PipelineFor | src/TextProcessing/src/main/java/eu/modernmt/processing/Preprocessor.java:55 | The chosen pipeline tokenizes iff `tokenize`. |
| Preprocessing.Preprocessor.ProcessText | src/TextProcessing/src/main/java/eu/modernmt/processing/Preprocessor.java:68-73 | One string goes through the pipeline chosen by `tokenize`. |
| Preprocessing.Preprocessor.Process | src/TextProcessing/src/main/java/eu/modernmt/processing/Preprocessor.java:53-66 | It returns a fresh array of the input's length. Slot `i` holds the chosen pipeline's output for string `i`. |
| Preprocessing.Preprocessor.ProcessList | src/TextProcessing/src/main/java/eu/modernmt/processing/Preprocessor.java:49-51 | The same as `Process`, for a list. |
| Preprocessing.BatchTask.constructor | src/TextProcessing/src/main/java/eu/modernmt/processing/Preprocessor.java:88-93 | The result array is fresh, as long as the source, and all null. Both cursors are 0. |
| Preprocessing.BatchTask.Read | src/TextProcessing/src/main/java/eu/modernmt/processing/Preprocessor.java:96-101 | Below the end it returns `source[readIndex]` and advances the cursor. At the end it returns null and the cursor stays. The write cursor is untouched. |
| Preprocessing.ReadManyFrom | src/TextProcessing/src/main/java/eu/modernmt/processing/Preprocessor.java:96-101 | `k` reads from any cursor return the next elements in order, then nulls. The cursor stops at the length. |
| Preprocessing.ReadManyFromStart | src/TextProcessing/src/main/java/eu/modernmt/processing/Preprocessor.java:96-100 | `k` reads from a fresh task return `source[0..min(k,n))`, each once and in order, then nulls. `readIndex` ends at `min(k, n)`. |
| Preprocessing.BatchTask.Write | src/TextProcessing/src/main/java/eu/modernmt/processing/Preprocessor.java:104-106 | Stores the value at `writeIndex`, then advances it. Every other slot and the read cursor are unchanged. |
| Preprocessing.WriteManyFrom | src/TextProcessing/src/main/java/eu/modernmt/processing/Preprocessor.java:104-106 | Successive writes fill the slots after the cursor with the values in write order. Every other slot is unchanged. |
| Preprocessing.WriteManyFromStart | src/TextProcessing/src/main/java/eu/modernmt/processing/Preprocessor.java:104-106 | After `k` writes to a fresh task, `result[0..k)` holds the written values in order and the rest is unchanged. |
| Preprocessing.BatchTask.GetResult | src/TextProcessing/src/main/java/eu/modernmt/processing/Preprocessor.java:108-110 | Returns the very array the writes filled. |
| Preprocessing.BatchTask.Close | src/TextProcessing/src/main/java/eu/modernmt/processing/Preprocessor.java:112-114 | Changes nothing. It has no `modifies`. |
| Preprocessing.RunJob | src/TextProcessing/src/main/java/eu/modernmt/processing/Preprocessor.java:57-60 | The job, run to completion, reads every string and writes each output in input order. Afterwards slot `i` holds the output for string `i`. |
| Training.DivTen | src/core/src/main/java/eu/modernmt/facade/TrainingFacade.java:96 | Java's `/ 10`: the quotient truncates toward zero, for non-negative and negative inputs alike. |
| Training.SizeThreshold | src/core/src/main/java/eu/modernmt/facade/TrainingFacade.java:92-96 | The threshold is 2·1024³ when the memory limit is `Long.MAX_VALUE`, and a tenth of the limit (truncated) otherwise. |
| Training.RoutePartitions | src/core/src/main/java/eu/modernmt/facade/TrainingFacade.java:107-110 | The two processes together receive every corpus exactly once, wrapped for cleaning (as multisets). Each parallel corpus is smaller than the threshold; each serialized corpus is not. |
| Training.RouteMembership | src/core/src/main/java/eu/modernmt/facade/TrainingFacade.java:119-122 | A corpus goes to the parallel process iff it is listed and its size is below the threshold, and to the serialized process iff it is listed and its size is at least the threshold. |
| Training.RouteAppend | src/core/src/main/java/eu/modernmt/facade/TrainingFacade.java:102-124 | Routing two lists in turn equals routing their concatenation. Each process keeps input order, with the first list before the second. |
| Training.Distribute | src/core/src/main/java/eu/modernmt/facade/TrainingFacade.java:103-111 | The loop appends to each process exactly the corpora `Route` assigns it. |
| Training.Clean | src/core/src/main/java/eu/modernmt/facade/TrainingFacade.java:90-128 | Both processes write through a lazy writer over the factory. The serialized process has 1 I/O thread; the parallel one keeps its default. Their contents are `Route` of the multilingual then the monolingual corpora, where a null list is empty. The parallel process runs first, then the serialized one. |
| Training.CleanMonolingual | src/core/src/main/java/eu/modernmt/facade/TrainingFacade.java:78-80 | `clean` with no multilingual corpora and a renaming output. |
| Training.CleanToDirectory | src/core/src/main/java/eu/modernmt/facade/TrainingFacade.java:82-84 | `clean` with no monolingual corpora and a renaming output. |
| Training.CleanWithFactory | src/core/src/main/java/eu/modernmt/facade/TrainingFacade.java:86-88 | `clean` with no monolingual corpora and the caller's factory. |
| Training.WrapAdd | src/core/src/main/java/eu/modernmt/facade/TrainingFacade.java:182-183 | Wrapping after each `long` addition equals wrapping the exact total once. |
| Training.TotalLines | src/core/src/main/java/eu/modernmt/facade/TrainingFacade.java:181-183 | The loop's `lines` is the total of the counts in `long` arithmetic, and exactly the total whenever that fits in a `long`. |
| Training.Dedup | src/core/src/main/java/eu/modernmt/facade/TrainingFacade.java:180-195 | The Bloom filter is sized with the line total. One process writes every corpus, unwrapped and in order, through a lazy writer over the Bloom-filter output, and then runs once. |
| Training.Deduplicate | src/core/src/main/java/eu/modernmt/facade/TrainingFacade.java:180-195 | The same as `Dedup`, for multilingual corpora. |
| Training.DeduplicateMonolingual | src/core/src/main/java/eu/modernmt/facade/TrainingFacade.java:197-212 | The same as `Dedup`, for monolingual corpora. |
| Training.DefaultTrainingOptions | src/core/src/main/java/eu/modernmt/facade/TrainingFacade.java:30-36 | The partition size is 2000, and no development or test partition is configured. |
| Training.ExtraPartitions | src/core/src/main/java/eu/modernmt/facade/TrainingFacade.java:142-150 | It holds one partition per configured directory, the development partition before the test partition, each capped at the partition size. |
| Training.Preprocess | src/core/src/main/java/eu/modernmt/facade/TrainingFacade.java:136-153 | The pipeline has an uncapped main partition in the destination and, as extras, `ExtraPartitions`. It runs once over the corpora with those partitions. The deletions, additions and the run it takes after building the pipeline are `PreprocessSteps`. |
| Training.PreprocessOrder | src/core/src/main/java/eu/modernmt/facade/TrainingFacade.java:139-152 | After the pipeline is built, the destination is deleted first and the pipeline runs last, once. Each extra partition is added right after its own directory is deleted. The partitions added are `ExtraPartitions`, in that order. |
| Training.AddedAppend | src/core/src/main/java/eu/modernmt/facade/TrainingFacade.java:141-149 | The partitions added by two step sequences run one after the other are those of the first, then those of the second. |
| Training.PreprocessWithDefaults | src/core/src/main/java/eu/modernmt/facade/TrainingFacade.java:132-134 | With the default options there are no extra partitions: the destination is deleted, then the pipeline runs. |

## Left out

- Concurrency. `ProcessingPipeline`'s worker pool is not modelled: `RunJob` is a sequential drain
  loop, reading until the stream ends and writing each output. It therefore writes each output
  in input order, which the pipeline's order preservation is relied on to do.
- Preprocessing.BatchTask.Write: requires the write cursor to be inside the array. Past the end,
  Java increments `writeIndex` and then throws `ArrayIndexOutOfBoundsException`; that path is
  not modelled.
- Null strings inside the source array. The model's strings are never null, so `read` returns
  null only at the end of the array.
- The overloads that take `Runtime.availableProcessors()`: the one-argument `getPipeline` and
  `Preprocessor(Locale)`. The thread count is a parameter instead.
- `Preprocessor.close`: it quietly closes the two pipelines, whose internals are not modelled.
- The stages' internals are not modelled: `Tokenizers.forLanguage` is the value
  `LanguageTokenizer(language)`.
- The reflection-based adapter constructor (`clazz.newInstance()` and its
  `IllegalArgumentException`). The model starts from the factory constructor.
- The `getInitializer` calls on filters: the probe's in the constructor, and the one in
  `createInitializer` on the language's filter. Only their outcome is modelled: the probe's
  answer is `hasInitializer`, and a created sub-initializer is the id of its language's filter.
- The factory is assumed to return a new instance on each `create`. The Java constructor accepts
  any `Factory`, including one that returns a shared object. The adapter itself guarantees one
  `create` per language, not distinct objects, so the model's distinct ids stand for distinct
  factory calls.
- The monolingual filters' behaviour. A filter's verdict is the parameter `decide`.
- Every instance the factory makes must have an initializer whenever the probe had one.
  Otherwise Java's `createInitializer` fails with a null pointer; this failure is not modelled.
- `HashMap` iteration order. `clear` and `onEnd` choose an order nondeterministically and return
  it as a ghost value, proved to list every key once.
- `onBegin` of the pair initializer does nothing. Its model is an empty method without a
  contract.
- `CorporaCleaning.wrap` and its cleaning options. A wrapped corpus is the value `Cleaned(corpus)`.
- The copying itself. `BatchCopyProcess`, `LazyWriter*`, `CorporaBloomFilter` and
  `CorporaPartition` are values that record their configuration. Only the fields the facade sets
  are modelled, so the stand-ins' own methods have no rows above.
- The environment and the file system:
  - `Runtime.maxMemory`, `Corpora.fileSize`, `IOCorporaUtils.countLines` (used by `deduplicate`)
    and `IOCorporaUtils.countLinesMonolingual` (used by `deduplicateMonolingual`) are inputs;
  - the line counts are the sequence of `countLines(...).values()`, one per distinct corpus, in
    the map's iteration order;
  - the directory deletions and `forceMkdir` in `deduplicate` are not modelled;
  - the deletions in `preprocess` are recorded, interleaved with the partitions it adds and the
    run, as a ghost sequence of steps.
- Exceptions (`IOException`, `ProcessingException`, and `InterruptedException` turned into
  `RuntimeException`) are not modelled.
