/**
 * What the classification step promises, stated over its specification
 * (Decide, MetadataAfter, Emitted, Counted) and, for running it twice, over
 * the mapper's Map method itself.
 */
module MapperProperties {
  import opened Wrappers
  import opened Framework
  import opened Mapper

  /**
   * The length test counts UTF-16 units: one character outside the Basic
   * Multilingual Plane is long enough to be classified, one inside is not.
   */
  lemma SupplementaryCharacterIsClassified(lowerCase: bool, c: TextClassifier, tokenize: Tokenizer)
    ensures Utf16Length("\U{1F600}") == 2 && Utf16Length("a") == 1
    ensures Decide(Some("\U{1F600}"), lowerCase, Some(c), tokenize) != Success(MissingText)
    ensures Decide(Some("a"), lowerCase, Some(c), tokenize) == Success(MissingText)
  {
  }

  /**
   * A text shorter than two UTF-16 units is passed through: the metadata is
   * unchanged and only the missing-text counter goes up. Neither the
   * tokenizer nor the classifier is consulted: the outcome is the same
   * whatever they are.
   */
  lemma ShortTextPassesThrough(text: string, lowerCase: bool, metadata: map<string, string>, featureName: string,
                               c1: Option<TextClassifier>, c2: Option<TextClassifier>, t1: Tokenizer, t2: Tokenizer)
    requires Utf16Length(text) < 2
    ensures Decide(Some(text), lowerCase, c1, t1) == Decide(Some(text), lowerCase, c2, t2) == Success(MissingText)
    ensures MetadataAfter(metadata, featureName, Success(MissingText)) == metadata
    ensures CounterFor(MissingText) == (CounterGroup, MissingTextCounter)
  {
  }

  /**
   * A classifier error passes the document through: the metadata is
   * unchanged and the exception counter is the one counted.
   */
  lemma ClassifyFailurePassesThrough(text: string, lowerCase: bool, c: TextClassifier, tokenize: Tokenizer,
                                     metadata: map<string, string>, featureName: string)
    requires Utf16Length(text) >= 2
    requires c.classify(tokenize(text, lowerCase)).Failure?
    ensures var r := Decide(Some(text), lowerCase, Some(c), tokenize);
      && r.Success? && r.value.ClassifyFailed?
      && MetadataAfter(metadata, featureName, r) == metadata
      && CounterFor(r.value) == (CounterGroup, ExceptionCounter)
  {
  }

  /**
   * A classifier result labels the document: the feature holds the best
   * label of the scores, every other entry is kept, and the label's own
   * counter is the one counted.
   */
  lemma ClassifiedDocumentIsLabeled(text: string, lowerCase: bool, c: TextClassifier, tokenize: Tokenizer,
                                    metadata: map<string, string>, featureName: string)
    requires Utf16Length(text) >= 2
    requires c.classify(tokenize(text, lowerCase)).Success?
    ensures var best := c.bestLabel(c.classify(tokenize(text, lowerCase)).value);
      var r := Decide(Some(text), lowerCase, Some(c), tokenize);
      var m := MetadataAfter(metadata, featureName, r);
      && r == Success(Labeled(best))
      && featureName in m && m[featureName] == best
      && (forall k :: k != featureName ==> (k in m <==> k in metadata))
      && (forall k :: k != featureName && k in metadata ==> m[k] == metadata[k])
      && CounterFor(r.value) == (CounterGroup, best)
  {
  }

  /**
   * Every normal return emits exactly one record under the document's key
   * and raises exactly one counter by exactly one; a fault emits and counts
   * nothing.
   */
  lemma OneRecordOneCounter(key: string, doc: DocValue, counters: map<CounterKey, int>, r: Result<Outcome, MapFault>)
    ensures r.Success? ==> |Emitted(key, doc, r)| == 1 && Emitted(key, doc, r)[0].key == key
    ensures r.Success? ==> forall k :: Count(Counted(counters, r), k) == Count(counters, k) + (if k == CounterFor(r.value) then 1 else 0)
    ensures r.Failure? ==> Emitted(key, doc, r) == [] && Counted(counters, r) == counters
  {
  }

  /** With neither property set, the worker tokenizes as written and labels under "label". */
  lemma DefaultsWhenUnset(job: JobConf)
    requires TokenizeParam !in job && FeatureNameParam !in job
    ensures GetBoolean(job, TokenizeParam, false) == false
    ensures Get(job, FeatureNameParam, DefaultFeatureName) == "label"
  {
  }

  /**
   * Only a missing archive list falls back to the configured path: a list
   * with no matching entry, the empty list included, is a fatal error, while
   * a matching entry is loaded in preference to the configured path.
   */
  lemma ArchiveListDecidesModelFile(modelPath: string, paths: seq<string>, i: nat,
                                    getClassifier: string -> Result<TextClassifier, string>)
    requires i <= |paths| && (forall j :: 0 <= j < i ==> !EndsWith(paths[j], modelPath))
    ensures LoadModel(Some(modelPath), Some([]), getClassifier) == Failure(ModelNotInCache)
    ensures LoadModel(Some(modelPath), None, getClassifier) ==
      match getClassifier(modelPath)
      case Success(c) => Success(c)
      case Failure(e) => Failure(LoadFailed(e))
    ensures i < |paths| && EndsWith(paths[i], modelPath) ==> Locate(modelPath, Some(paths)) == Some(paths[i])
    ensures i == |paths| ==> LoadModel(Some(modelPath), Some(paths), getClassifier) == Failure(ModelNotInCache)
  {
  }

  /** Writing the label overwrites: applying the same outcome twice gives the metadata of once. */
  lemma AnnotationIsIdempotent(metadata: map<string, string>, featureName: string, r: Result<Outcome, MapFault>)
    ensures MetadataAfter(MetadataAfter(metadata, featureName, r), featureName, r) == MetadataAfter(metadata, featureName, r)
  {
  }

  /**
   * Running the mapper twice on one document, with the same classifier and
   * tokenizer, leaves the metadata of a single run: the second run sees the
   * same text, so reaches the same outcome, and its write overwrites the first.
   */
  method MapTwice(mapper: TextClassifierMapper, key: string, doc: BehemothDocument,
                  collector: OutputCollector, reporter: Reporter, tokenize: Tokenizer)
    returns (first: Result<Outcome, MapFault>, second: Result<Outcome, MapFault>)
    modifies doc, collector, reporter
    ensures second == first
    ensures doc.text == old(doc.text)
    ensures doc.metadata == MetadataAfter(old(doc.metadata), mapper.docFeaturename, first)
  {
    first := mapper.Map(key, doc, collector, reporter, tokenize);
    second := mapper.Map(key, doc, collector, reporter, tokenize);
    AnnotationIsIdempotent(old(doc.metadata), mapper.docFeaturename, first);
  }
}
