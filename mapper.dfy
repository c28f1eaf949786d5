/**
 * The per-worker side of the classification job: the mapper's one-time
 * initialisation (configuration defaults, locating the local copy of the model
 * and loading it) and the per-document classification step.
 *
 * The classification library is opaque: a loaded classifier is a pair of
 * functions (score a token sequence, possibly failing; pick the best label of
 * a score vector), the tokenizer is a function of the text and the lower-case
 * flag, and loading a model from a local path is a function that may fail.
 */
module Mapper {
  import opened Wrappers
  import opened Framework

  /** Configuration property holding the model path (set by the driver). */
  const ModelNameParam := "textclassif.model.name"
  /** Configuration property: lower-case the text when tokenizing. */
  const TokenizeParam := "classification.tokenize"
  /** Configuration property: metadata key the predicted label is written under. */
  const FeatureNameParam := "classification.doc.feature.name"
  /** Default metadata key for the predicted label. */
  const DefaultFeatureName := "label"

  /** Counter group and the two fixed counter names of the classification step. */
  const CounterGroup := "text classification"
  const MissingTextCounter := "MISSING TEXT"
  const ExceptionCounter := "EXCEPTION"

  /** A loaded text classifier, seen only through the two calls the mapper makes. */
  datatype TextClassifier = TextClassifier(
    classify: seq<string> -> Result<seq<real>, string>,
    bestLabel: seq<real> -> string)

  /** Splits a text into tokens, lower-casing them when the flag is set. */
  type Tokenizer = (string, bool) -> seq<string>

  /** How a document that was emitted got through the classification step. */
  datatype Outcome =
    | MissingText                   // text shorter than two characters
    | ClassifyFailed(error: string) // the classifier raised an error
    | Labeled(predicted: string)    // the classifier's best label

  /** Errors that escape the classification step (nothing is emitted or counted). */
  datatype MapFault =
    | NullText             // the document has no text at all
    | ClassifierNotLoaded  // no classifier was loaded before the first document

  /** Fatal errors of the worker's initialisation. */
  datatype InitError =
    | ModelPathUnset           // the model path property is not set
    | ModelNotInCache          // no local archive path ends with the model path
    | LoadFailed(reason: string) // the classifier could not be built from the file

  // ---------------------------------------------------------------------
  // Locating the model

  /** Java's `s.endsWith(suffix)`: the last characters of `s` are those of `suffix`. */
  function EndsWith(s: string, suffix: string): (b: bool)
    ensures b <==> |suffix| <= |s| && forall i :: 0 <= i < |suffix| ==> s[|s| - |suffix| + i] == suffix[i]
  {
    |suffix| <= |s| && s[|s| - |suffix|..] == suffix
  }

  /** The index of the first path in `paths` that ends with `suffix`, if any. */
  function FirstMatch(paths: seq<string>, suffix: string): (r: Option<nat>)
    ensures r.Some? ==> r.value < |paths| && EndsWith(paths[r.value], suffix)
    ensures r.Some? ==> forall j :: 0 <= j < r.value ==> !EndsWith(paths[j], suffix)
    ensures r.None? <==> forall j :: 0 <= j < |paths| ==> !EndsWith(paths[j], suffix)
  {
    if paths == [] then None
    else if EndsWith(paths[0], suffix) then Some(0)
    else match FirstMatch(paths[1..], suffix)
      case None => None
      case Some(i) => Some(i + 1)
  }

  /**
   * The local path of the model: with no list of local archives (local mode)
   * the configured path itself; otherwise the first archive path that ends
   * with the configured path, and none when no archive matches.
   */
  function Locate(modelPath: string, localArchives: Option<seq<string>>): (r: Option<string>)
    ensures localArchives.None? ==> r == Some(modelPath)
    ensures localArchives.Some? && r.Some? ==>
      exists i :: 0 <= i < |localArchives.value| && localArchives.value[i] == r.value
        && EndsWith(r.value, modelPath)
        && forall j :: 0 <= j < i ==> !EndsWith(localArchives.value[j], modelPath)
    ensures localArchives.Some? && r.None? <==>
      localArchives.Some? && forall j :: 0 <= j < |localArchives.value| ==> !EndsWith(localArchives.value[j], modelPath)
  {
    match localArchives
    case None => Some(modelPath)
    case Some(paths) =>
      match FirstMatch(paths, modelPath)
      case None => None
      case Some(i) => Some(paths[i])
  }

  /** The scan over the local archives, as the mapper runs it: the first match wins. */
  method LocateModel(modelPath: string, localArchives: Option<seq<string>>) returns (modelFile: Option<string>)
    ensures modelFile == Locate(modelPath, localArchives)
  {
    if localArchives.None? {
      // local mode: read straight from the configured path
      return Some(modelPath);
    }
    var paths := localArchives.value;
    modelFile := None;
    for i := 0 to |paths|
      invariant modelFile.None?
      invariant forall j :: 0 <= j < i ==> !EndsWith(paths[j], modelPath)
    {
      if !EndsWith(paths[i], modelPath) {
        continue;
      }
      modelFile := Some(paths[i]);
      assert FirstMatch(paths, modelPath) == Some(i);
      break;
    }
  }

  /**
   * The classifier a worker loads, or the fatal error that stops it: an
   * unset model path, no located file, or the loader's own failure. When a
   * file is located, the loader's answer for exactly that file decides.
   */
  function LoadModel(modelPath: Option<string>, localArchives: Option<seq<string>>,
                     getClassifier: string -> Result<TextClassifier, string>): (r: Result<TextClassifier, InitError>)
    ensures r == Failure(ModelPathUnset) <==> modelPath.None?
    ensures r == Failure(ModelNotInCache) <==> modelPath.Some? && Locate(modelPath.value, localArchives).None?
    ensures modelPath.Some? && Locate(modelPath.value, localArchives).Some? ==>
      var file := Locate(modelPath.value, localArchives).value;
      && (r.Success? <==> getClassifier(file).Success?)
      && (r.Success? ==> getClassifier(file) == Success(r.value))
      && (r.Failure? ==> r == Failure(LoadFailed(getClassifier(file).error)))
  {
    if modelPath.None? then Failure(ModelPathUnset)
    else match Locate(modelPath.value, localArchives)
      case None => Failure(ModelNotInCache)
      case Some(file) =>
        match getClassifier(file)
        case Failure(e) => Failure(LoadFailed(e))
        case Success(c) => Success(c)
  }

  // ---------------------------------------------------------------------
  // The classification step

  /**
   * Java's `String.length()`: the number of UTF-16 code units, so a
   * character outside the Basic Multilingual Plane counts twice.
   */
  function Utf16Length(s: string): (n: nat)
    ensures |s| <= n <= 2 * |s|
    ensures n == |s| <==> forall i :: 0 <= i < |s| ==> s[i] as int < 0x1_0000
  {
    if s == [] then 0
    else (if s[0] as int < 0x1_0000 then 1 else 2) + Utf16Length(s[1..])
  }

  /**
   * What the classification step does with a document's text: no text is an
   * error; a text under two UTF-16 units is missing text; otherwise the
   * tokens are classified, with no loaded classifier an error, a classifier
   * error an exception outcome, and a score vector its best label.
   */
  function Decide(text: Option<string>, lowerCase: bool, classifier: Option<TextClassifier>,
                  tokenize: Tokenizer): (r: Result<Outcome, MapFault>)
    ensures r == Failure(NullText) <==> text.None?
    ensures r == Success(MissingText) <==> text.Some? && Utf16Length(text.value) < 2
    ensures r == Failure(ClassifierNotLoaded) <==> text.Some? && Utf16Length(text.value) >= 2 && classifier.None?
    ensures text.Some? && Utf16Length(text.value) >= 2 && classifier.Some? ==>
      var scores := classifier.value.classify(tokenize(text.value, lowerCase));
      && (scores.Failure? ==> r == Success(ClassifyFailed(scores.error)))
      && (scores.Success? ==> r == Success(Labeled(classifier.value.bestLabel(scores.value))))
  {
    if text.None? then Failure(NullText)
    else if Utf16Length(text.value) < 2 then Success(MissingText)
    else if classifier.None? then Failure(ClassifierNotLoaded)
    else match classifier.value.classify(tokenize(text.value, lowerCase))
      case Failure(e) => Success(ClassifyFailed(e))
      case Success(scores) => Success(Labeled(classifier.value.bestLabel(scores)))
  }

  /** The counter an emitted document increments. */
  function CounterFor(outcome: Outcome): (k: CounterKey)
    ensures k.0 == CounterGroup
    ensures outcome.MissingText? ==> k.1 == MissingTextCounter
    ensures outcome.ClassifyFailed? ==> k.1 == ExceptionCounter
    ensures outcome.Labeled? ==> k.1 == outcome.predicted
  {
    match outcome
    case MissingText => (CounterGroup, MissingTextCounter)
    case ClassifyFailed(_) => (CounterGroup, ExceptionCounter)
    case Labeled(predicted) => (CounterGroup, predicted)
  }

  /** The metadata after the step: only a labelled document gains (or overwrites) the feature. */
  function Annotated(metadata: map<string, string>, featureName: string, outcome: Outcome): (m: map<string, string>)
    ensures outcome.Labeled? ==> featureName in m && m[featureName] == outcome.predicted
    ensures outcome.Labeled? ==> m.Keys == metadata.Keys + {featureName}
    ensures forall k :: k in metadata && k != featureName ==> k in m && m[k] == metadata[k]
    ensures !outcome.Labeled? ==> m == metadata
  {
    if outcome.Labeled? then metadata[featureName := outcome.predicted] else metadata
  }

  /** The metadata after the step; a fault leaves it as it was. */
  function MetadataAfter(metadata: map<string, string>, featureName: string, r: Result<Outcome, MapFault>): map<string, string>
  {
    if r.Success? then Annotated(metadata, featureName, r.value) else metadata
  }

  /** The records the step appends: one record for an outcome, none for a fault. */
  function Emitted(key: string, doc: DocValue, r: Result<Outcome, MapFault>): seq<Record>
  {
    if r.Success? then [Record(key, doc)] else []
  }

  /** The counters after the step: one counter up by one for an outcome, none for a fault. */
  function Counted(counters: map<CounterKey, int>, r: Result<Outcome, MapFault>): map<CounterKey, int>
  {
    if r.Success? then Increment(counters, CounterFor(r.value), 1) else counters
  }

  /** The per-worker state of the mapper. */
  class TextClassifierMapper {
    var classifier: Option<TextClassifier>
    var lowerCase: bool
    var docFeaturename: string

    /** A fresh mapper: no classifier yet, and the field defaults. */
    constructor ()
      ensures classifier.None? && !lowerCase && docFeaturename == DefaultFeatureName
    {
      classifier := None;
      lowerCase := false;
      docFeaturename := DefaultFeatureName;
    }

    /**
     * Reads the tokenizer flag and the feature name (with their defaults),
     * then locates and loads the model. The flag and the name are set even
     * when loading fails; a failure is fatal to the worker.
     */
    method Configure(job: JobConf, localArchives: Option<seq<string>>,
                     getClassifier: string -> Result<TextClassifier, string>) returns (fatal: Option<InitError>)
      modifies this
      ensures lowerCase == GetBoolean(job, TokenizeParam, false)
      ensures docFeaturename == Get(job, FeatureNameParam, DefaultFeatureName)
      ensures var loaded := LoadModel(GetOrNull(job, ModelNameParam), localArchives, getClassifier);
        && (loaded.Success? ==> fatal.None? && classifier == Some(loaded.value))
        && (loaded.Failure? ==> fatal == Some(loaded.error) && classifier == old(classifier))
    {
      lowerCase := GetBoolean(job, TokenizeParam, false);
      docFeaturename := Get(job, FeatureNameParam, DefaultFeatureName);
      var modelPath := GetOrNull(job, ModelNameParam);
      if modelPath.None? {
        return Some(ModelPathUnset);
      }
      var modelFile := LocateModel(modelPath.value, localArchives);
      if modelFile.None? {
        return Some(ModelNotInCache);
      }
      var loaded := getClassifier(modelFile.value);
      if loaded.Failure? {
        return Some(LoadFailed(loaded.error));
      }
      classifier := Some(loaded.value);
      fatal := None;
    }

    /**
     * Classifies one document: a text shorter than two characters is passed
     * through and counted as missing; otherwise the tokens are classified, a
     * classifier error passes the document through and counts as an
     * exception, and a result writes the best label into the metadata under
     * the feature name and counts under the label. The document is emitted
     * once under its key in every case that returns normally.
     */
    method Map(key: string, doc: BehemothDocument, collector: OutputCollector, reporter: Reporter,
               tokenize: Tokenizer) returns (r: Result<Outcome, MapFault>)
      modifies doc, collector, reporter
      ensures r == Decide(old(doc.text), lowerCase, classifier, tokenize)
      ensures doc.text == old(doc.text)
      ensures doc.metadata == MetadataAfter(old(doc.metadata), docFeaturename, r)
      ensures collector.records == old(collector.records) + Emitted(key, doc.Value(), r)
      ensures reporter.counters == Counted(old(reporter.counters), r)
    {
      if doc.text.None? {
        // the length test is evaluated even for a missing text, and throws
        return Failure(NullText);
      }
      if Utf16Length(doc.text.value) < 2 {
        reporter.IncrCounter(CounterGroup, MissingTextCounter, 1);
        collector.Collect(key, doc);
        return Success(MissingText);
      }
      var tokens := tokenize(doc.text.value, lowerCase);
      if classifier.None? {
        return Failure(ClassifierNotLoaded);
      }
      var scores := classifier.value.classify(tokens);
      if scores.Failure? {
        collector.Collect(key, doc);
        reporter.IncrCounter(CounterGroup, ExceptionCounter, 1);
        return Success(ClassifyFailed(scores.error));
      }
      var predicted := classifier.value.bestLabel(scores.value);
      doc.PutMetadata(docFeaturename, predicted);
      collector.Collect(key, doc);
      reporter.IncrCounter(CounterGroup, predicted, 1);
      r := Success(Labeled(predicted));
    }
  }
}
