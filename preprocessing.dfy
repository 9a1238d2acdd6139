/**
 * The preprocessor: the choice between the tokenizing and the non-tokenizing pipeline, and
 * `BatchTask`, the array-backed stream pair a batch of strings is read from and the processed
 * sentences are written to.
 */
module Preprocessing {

  import opened Wrappers

  /** A `java.util.Locale`, by its language tag. */
  type Locale = string

  // ---------------------------------------------------------------------------------------
  // pipelines

  /** The processors a preprocessing pipeline is made of; their internals are not modelled. */
  datatype Stage =
    | StringNormalizer
    | LanguageTokenizer(language: Locale)   // `Tokenizers.forLanguage(language)`
    | SimpleTokenizer
    | TagHighlighter

  datatype Pipeline = Pipeline(threads: int, stages: seq<Stage>)

  /** A pipeline tokenizes when its tokenizer stage is the language's own tokenizer. */
  predicate Tokenizes(p: Pipeline) {
    |p.stages| == 3 && p.stages[1].LanguageTokenizer?
  }

  /**
   * `getPipeline(language, tokenize, threads)`: normalize, then tokenize with the language's
   * tokenizer (or the simple whitespace tokenizer when `tokenize` is false), then highlight
   * tags, on `threads` threads.
   */
  function GetPipeline(language: Locale, tokenize: bool, threads: int): (p: Pipeline)
    ensures p.threads == threads && |p.stages| == 3
    ensures p.stages[0] == StringNormalizer && p.stages[2] == TagHighlighter
    ensures Tokenizes(p) <==> tokenize
    ensures tokenize ==> p.stages[1] == LanguageTokenizer(language)
    ensures !tokenize ==> p.stages[1] == SimpleTokenizer
  {
    var tokenizer := if tokenize then LanguageTokenizer(language) else SimpleTokenizer;
    Pipeline(threads, [StringNormalizer, tokenizer, TagHighlighter])
  }

  // ---------------------------------------------------------------------------------------
  // the stream pair as values

  /** One `read`: the element under the cursor and the cursor moved past it, or null at the end. */
  function ReadStep(source: seq<string>, cursor: nat): (Option<string>, nat) {
    if cursor < |source| then (Some(source[cursor]), cursor + 1) else (None, cursor)
  }

  /** `k` successive reads from `cursor`: what they return, and the cursor afterwards. */
  function ReadMany(source: seq<string>, cursor: nat, k: nat): (seq<Option<string>>, nat)
    decreases k
  {
    if k == 0 then ([], cursor)
    else
      var (x, next) := ReadStep(source, cursor);
      var (xs, last) := ReadMany(source, next, k - 1);
      ([x] + xs, last)
  }

  /** What the `i`-th read from the start returns: the `i`-th element, or null past the end. */
  function Expected(source: seq<string>, i: nat): Option<string> {
    if i < |source| then Some(source[i]) else None
  }

  /**
   * From any cursor within the array, `k` reads return the following elements in order, each
   * once, then nulls; the cursor stops at the array's length and never goes past it.
   */
  lemma {:induction false} ReadManyFrom(source: seq<string>, cursor: nat, k: nat)
    requires cursor <= |source|
    ensures var (xs, last) := ReadMany(source, cursor, k);
      && |xs| == k
      && (forall i :: 0 <= i < k ==> xs[i] == Expected(source, cursor + i))
      && last == if cursor + k <= |source| then cursor + k else |source|
    decreases k
  {
    if k > 0 {
      var (x, next) := ReadStep(source, cursor);
      ReadManyFrom(source, next, k - 1);
      var (xs, last) := ReadMany(source, next, k - 1);
      forall i | 0 <= i < k
        ensures ([x] + xs)[i] == Expected(source, cursor + i)
      {
        if i > 0 {
          assert ([x] + xs)[i] == xs[i - 1];
          if cursor == |source| {
            assert Expected(source, next + (i - 1)) == None;
          }
        }
      }
    }
  }

  /** `k` reads from a fresh task return `source[0..min(k, n))` in order, followed by nulls. */
  lemma ReadManyFromStart(source: seq<string>, k: nat)
    ensures var (xs, last) := ReadMany(source, 0, k);
      && |xs| == k
      && (forall i :: 0 <= i < k && i < |source| ==> xs[i] == Some(source[i]))
      && (forall i :: |source| <= i < k ==> xs[i] == None)
      && last == if k <= |source| then k else |source|
  {
    ReadManyFrom(source, 0, k);
    var (xs, last) := ReadMany(source, 0, k);
    assert forall i :: 0 <= i < k ==> xs[i] == Expected(source, i);
  }

  /** One `write`: the value stored under the cursor, the cursor moved past it. */
  function WriteStep<S>(result: seq<Option<S>>, cursor: nat, value: S): (seq<Option<S>>, nat)
    requires cursor < |result|
  {
    (result[cursor := Some(value)], cursor + 1)
  }

  /** Successive writes of `values` from `cursor`. */
  function WriteMany<S>(result: seq<Option<S>>, cursor: nat, values: seq<S>): (seq<Option<S>>, nat)
    requires cursor + |values| <= |result|
    decreases |values|
  {
    if values == [] then (result, cursor)
    else
      var (next, c) := WriteStep(result, cursor, values[0]);
      WriteMany(next, c, values[1..])
  }

  /**
   * Writes from `cursor` store the values in write order in the slots after it and leave every
   * other slot unchanged; the cursor ends just past the last one.
   */
  lemma {:induction false} WriteManyFrom<S>(result: seq<Option<S>>, cursor: nat, values: seq<S>)
    requires cursor + |values| <= |result|
    ensures var (after, last) := WriteMany(result, cursor, values);
      && |after| == |result|
      && last == cursor + |values|
      && after[..cursor] == result[..cursor]
      && (forall i :: 0 <= i < |values| ==> after[cursor + i] == Some(values[i]))
      && after[cursor + |values|..] == result[cursor + |values|..]
    decreases |values|
  {
    if values != [] {
      var (next, c) := WriteStep(result, cursor, values[0]);
      WriteManyFrom(next, c, values[1..]);
      var (after, last) := WriteMany(next, c, values[1..]);
      assert after[..cursor] == next[..cursor] == result[..cursor] by {
        assert after[..c][..cursor] == after[..cursor];
        assert next[..c][..cursor] == next[..cursor];
      }
      forall i | 0 <= i < |values|
        ensures after[cursor + i] == Some(values[i])
      {
        if i == 0 {
          assert after[..c][cursor] == next[..c][cursor];
        } else {
          assert values[1..][i - 1] == values[i];
        }
      }
    }
  }

  /** `k` writes into a fresh task fill `result[0..k)` with the written values, in write order. */
  lemma WriteManyFromStart<S>(result: seq<Option<S>>, values: seq<S>)
    requires |values| <= |result|
    ensures var (after, last) := WriteMany(result, 0, values);
      && last == |values| && |after| == |result|
      && (forall i :: 0 <= i < |values| ==> after[i] == Some(values[i]))
      && after[|values|..] == result[|values|..]
  {
    WriteManyFrom(result, 0, values);
  }

  // ---------------------------------------------------------------------------------------
  // BatchTask

  /**
   * The input and output of one batch: strings are read from `source` through `readIndex`,
   * processed sentences are written to `result` through `writeIndex`. A slot not yet written
   * holds `None` (Java's null).
   */
  class BatchTask<S> {
    const source: array<string>
    const result: array<Option<S>>
    var readIndex: nat
    var writeIndex: nat

    ghost predicate Valid()
      reads this
    {
      result.Length == source.Length && readIndex <= source.Length && writeIndex <= result.Length
    }

    constructor(source: array<string>)
      ensures Valid()
      ensures this.source == source && fresh(result)
      ensures result.Length == source.Length && readIndex == 0 && writeIndex == 0
      ensures forall i :: 0 <= i < result.Length ==> result[i] == None
    {
      this.source := source;
      result := new Option<S>[source.Length](_ => None);
      readIndex := 0;
      writeIndex := 0;
    }

    /** `read()`: the next string and the cursor past it, or null with the cursor left alone. */
    method Read() returns (x: Option<string>)
      requires Valid()
      modifies this
      ensures Valid() && writeIndex == old(writeIndex)
      ensures (x, readIndex) == ReadStep(source[..], old(readIndex))
      ensures old(readIndex) < source.Length ==> x == Some(source[old(readIndex)]) && readIndex == old(readIndex) + 1
      ensures old(readIndex) >= source.Length ==> x == None && readIndex == old(readIndex)
    {
      if readIndex < source.Length {
        x := Some(source[readIndex]);
        readIndex := readIndex + 1;
      } else {
        x := None;
      }
    }

    /** `write(value)`: store at the write cursor, then move it; no other slot changes. */
    method Write(value: S)
      requires Valid() && writeIndex < result.Length
      modifies this, result
      ensures Valid() && readIndex == old(readIndex)
      ensures (result[..], writeIndex) == WriteStep(old(result[..]), old(writeIndex), value)
      ensures result[old(writeIndex)] == Some(value) && writeIndex == old(writeIndex) + 1
      ensures forall i :: 0 <= i < result.Length && i != old(writeIndex) ==> result[i] == old(result[i])
    {
      result[writeIndex] := Some(value);
      writeIndex := writeIndex + 1;
    }

    /** `getResult()`: the very array the writes filled. */
    method GetResult() returns (r: array<Option<S>>)
      ensures r == result
    {
      r := result;
    }

    /** `close()` releases nothing and changes nothing. */
    method Close()
      requires Valid()
      ensures Valid()
    {
    }
  }

  /**
   * The processing job, run to completion: read until the stream reports the end and write the
   * pipeline's output for each string read. Afterwards every slot holds the output for the
   * string at the same position.
   */
  method RunJob<S>(task: BatchTask<S>, pipeline: Pipeline, apply: (Pipeline, string) -> S)
    requires task.Valid() && task.readIndex == 0 && task.writeIndex == 0
    modifies task, task.result
    ensures task.Valid()
    ensures task.readIndex == task.source.Length && task.writeIndex == task.result.Length
    ensures forall i :: 0 <= i < task.result.Length ==> task.result[i] == Some(apply(pipeline, task.source[i]))
  {
    var x := task.Read();
    while x.Some?
      invariant task.Valid()
      invariant x.Some? ==> task.readIndex == task.writeIndex + 1 && x.value == task.source[task.writeIndex]
      invariant x.None? ==> task.readIndex == task.writeIndex == task.source.Length
      invariant forall i :: 0 <= i < task.writeIndex ==> task.result[i] == Some(apply(pipeline, task.source[i]))
      decreases task.source.Length - task.writeIndex
    {
      task.Write(apply(pipeline, x.value));
      x := task.Read();
    }
  }

  // ---------------------------------------------------------------------------------------
  // Preprocessor

  /** A preprocessor holds one pipeline with tokenization and one without, for one language. */
  class Preprocessor {
    const language: Locale
    const threads: int
    const withTokenization: Pipeline
    const withoutTokenization: Pipeline

    predicate Valid() {
      withTokenization == GetPipeline(language, true, threads) &&
      withoutTokenization == GetPipeline(language, false, threads)
    }

    constructor(language: Locale, threads: int)
      ensures Valid() && this.language == language && this.threads == threads
    {
      this.language := language;
      this.threads := threads;
      withTokenization := GetPipeline(language, true, threads);
      withoutTokenization := GetPipeline(language, false, threads);
    }

    /** The pipeline `process` sends text through: the tokenizing one iff `tokenize`. */
    function PipelineFor(tokenize: bool): (p: Pipeline)
      requires Valid()
      ensures Tokenizes(p) <==> tokenize
      ensures p.threads == threads && |p.stages| == 3 && p.stages[0] == StringNormalizer && p.stages[2] == TagHighlighter
      ensures tokenize ==> p.stages[1] == LanguageTokenizer(language)
    {
      if tokenize then withTokenization else withoutTokenization
    }

    /** `process(list, tokenize)`: the list copied into an array, then processed as one batch. */
    method ProcessList<S>(text: seq<string>, tokenize: bool, apply: (Pipeline, string) -> S)
      returns (r: array<Option<S>>)
      requires Valid()
      ensures fresh(r) && r.Length == |text|
      ensures forall i :: 0 <= i < r.Length ==> r[i] == Some(apply(PipelineFor(tokenize), text[i]))
    {
      var batch := new string[|text|](i requires 0 <= i < |text| => text[i]);
      r := Process(batch, tokenize, apply);
    }

    /** `process(text, tokenize)` on one string. */
    method ProcessText<S>(text: string, tokenize: bool, apply: (Pipeline, string) -> S) returns (s: S)
      requires Valid()
      ensures s == apply(PipelineFor(tokenize), text)
    {
      if tokenize {
        s := apply(withTokenization, text);
      } else {
        s := apply(withoutTokenization, text);
      }
    }

    /**
     * `process(text, tokenize)` on an array: one batch task over the array, run through the
     * selected pipeline; the result has one sentence per string, in order.
     */
    method Process<S>(text: array<string>, tokenize: bool, apply: (Pipeline, string) -> S)
      returns (r: array<Option<S>>)
      requires Valid()
      ensures fresh(r) && r.Length == text.Length
      ensures forall i :: 0 <= i < r.Length ==> r[i] == Some(apply(PipelineFor(tokenize), text[i]))
    {
      var task := new BatchTask<S>(text);
      var pipeline := if tokenize then withTokenization else withoutTokenization;
      RunJob(task, pipeline, apply);
      r := task.GetResult();
    }
  }
}
