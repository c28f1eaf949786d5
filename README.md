# Behemoth text classification: a Dafny model

This project models the text-classification stage of Behemoth, a map-only
Hadoop job that labels every document of a corpus with the best label of a
pre-trained text classifier. Three pieces of logic are modelled and proved:

- **The per-document step** (`TextClassifierMapper.map`): a text shorter than
  two characters (Java's `length()`, which counts UTF-16 code units, so a
  character outside the Basic Multilingual Plane counts twice) is passed through and counted as `MISSING TEXT`; otherwise the
  text is tokenized and classified; a classifier error passes the document
  through and counts as `EXCEPTION`; a result writes the best label into the
  document's metadata under the configured feature name (overwriting) and
  counts under the label. In every normal return the document is emitted once
  under its key and exactly one counter of group `text classification` goes up
  by one. A document without text, or a mapper without a loaded classifier,
  raises an error instead: nothing is emitted or counted.
- **Worker initialisation** (`TextClassifierMapper.configure`): the lower-case
  flag (default `false`) and the feature name (default `"label"`) are read from
  the job configuration, then the model file is located and loaded. With no
  archive list (local mode) the configured model path string is handed to the
  loader; with a list, the first entry that ends with the model path wins; a
  list without a
  match, the empty list included, is a fatal initialisation error, and so is a
  failure to load the classifier.
- **The driver** (`ClassifierJob.run`): the help flag returns 0 and is tested
  before the required options are checked; a missing input, output or model
  option returns -1; an empty input or output path throws when the driver
  builds its paths; a complete command line configures the job (model path in the configuration,
  no reducers), submits it, deletes the output if the job fails, and returns 0
  whether or not the job succeeded.

The classification library is opaque: a loaded classifier is a pair of
functions (`classify` on a token sequence, which may fail, and `bestLabel` on
a score vector), the tokenizer is a function of the text and the lower-case
flag, loading a model is a function from a local path that may fail, and
whether the submitted job succeeds is an input of the driver. The mapper is a
class whose `Map` changes the document's metadata in place, appends to the
output collector and updates the reporter's counters; `Configure` sets the
mapper's fields and runs the first-match scan as a loop.

Files: `wrappers.dfy` (Option, Result), `framework.dfy` (job configuration
getters, document, output collector, reporter), `mapper.dfy` (the mapper and
its specification), `mapper_properties.dfy` (the step's properties),
`driver.dfy` (the driver).

Three behaviours of the code look unintended but are modelled as written: the driver returns 0 after a failed job, a command-line parse
error is not a clean failure but falls through to a dereference of the null
command line (modelled as the error `NullCommandLine`), and a document whose text is null
raises an error rather than being counted as missing text, because the length
test at line 160 is joined with a non-short-circuit `|`.

## Model

| member | source | states |
|---|---|---|
| `Framework.Get` | src/main/java/com/digitalpebble/behemoth/ClassifierJob.java:189 | a configured value is returned as is; an unset property gives the default |
| `Framework.GetOrNull` | src/main/java/com/digitalpebble/behemoth/ClassifierJob.java:191 | the model path is present exactly when the property is set, and then is its value |
| `Framework.GetBoolean` | src/main/java/com/digitalpebble/behemoth/ClassifierJob.java:188 | "true" reads true, "false" reads false, unset or any other value gives the default |
| `Framework.BehemothDocument.PutMetadata` | src/main/java/com/digitalpebble/behemoth/ClassifierJob.java:179 | the named entry holds the value afterwards, every other entry and the text are kept |
| `Framework.OutputCollector.Collect` | src/main/java/com/digitalpebble/behemoth/ClassifierJob.java:180 | exactly one record, the key and the document's current value, is appended |
| `Framework.Increment` | src/main/java/com/digitalpebble/behemoth/ClassifierJob.java:181 | the named counter goes up by the amount (from zero if new) and no other counter changes |
| `Framework.Reporter.IncrCounter` | src/main/java/com/digitalpebble/behemoth/ClassifierJob.java:161 | the reporter's counters become the incremented counters |
| `Mapper.EndsWith` | src/main/java/com/digitalpebble/behemoth/ClassifierJob.java:207 | true exactly when the path is at least as long as the suffix and its last characters are the suffix's |
| `Mapper.FirstMatch` | src/main/java/com/digitalpebble/behemoth/ClassifierJob.java:204-211 | the index found ends with the suffix and no earlier entry does; none is found exactly when no entry ends with the suffix |
| `Mapper.Locate` | src/main/java/com/digitalpebble/behemoth/ClassifierJob.java:198-211 | no archive list gives the configured path; a list gives its first entry ending with the path, and nothing exactly when no entry matches |
| `Mapper.LocateModel` | src/main/java/com/digitalpebble/behemoth/ClassifierJob.java:198-211 | the continue/break scan returns exactly the first-match location |
| `Mapper.LoadModel` | src/main/java/com/digitalpebble/behemoth/ClassifierJob.java:191-218 | an unset model path and a missing local file are the two fatal locate errors; otherwise the loader's answer for exactly the located file is the classifier or the fatal load error |
| `Mapper.Utf16Length` | src/main/java/com/digitalpebble/behemoth/ClassifierJob.java:160 | the length lies between the number of characters and twice it, and equals the number of characters exactly when every character is in the Basic Multilingual Plane |
| `Mapper.Decide` | src/main/java/com/digitalpebble/behemoth/ClassifierJob.java:160-178 | no text is an error; under two UTF-16 units is missing text; with no loaded classifier an error; otherwise a classifier error is an exception outcome and a score vector gives its best label |
| `Mapper.CounterFor` | src/main/java/com/digitalpebble/behemoth/ClassifierJob.java:161-181 | the counter is in group "text classification", named MISSING TEXT, EXCEPTION or the label by outcome |
| `Mapper.Annotated` | src/main/java/com/digitalpebble/behemoth/ClassifierJob.java:179 | a label is put under the feature name (added or overwritten), every other entry is kept, other outcomes leave the metadata alone |
| `Mapper.TextClassifierMapper.constructor` | src/main/java/com/digitalpebble/behemoth/ClassifierJob.java:148-151 | a new mapper has no classifier, lower-casing off and feature name "label" |
| `Mapper.TextClassifierMapper.Configure` | src/main/java/com/digitalpebble/behemoth/ClassifierJob.java:185-221 | flag and feature name are read with their defaults (also when loading fails); the classifier is the one loaded from the located file, or the fatal error is returned and the classifier is unchanged |
| `Mapper.TextClassifierMapper.Map` | src/main/java/com/digitalpebble/behemoth/ClassifierJob.java:156-182 | the outcome is the specified decision; the text is kept; the metadata, the emitted records and the counters are those the outcome prescribes |
| `MapperProperties.SupplementaryCharacterIsClassified` | src/main/java/com/digitalpebble/behemoth/ClassifierJob.java:160 | a single character outside the Basic Multilingual Plane has length 2 and is not missing text, while a single other character is |
| `MapperProperties.ShortTextPassesThrough` | src/main/java/com/digitalpebble/behemoth/ClassifierJob.java:160-164 | a text under two UTF-16 units leaves the metadata unchanged, counts MISSING TEXT, and does not depend on the tokenizer or classifier |
| `MapperProperties.ClassifyFailurePassesThrough` | src/main/java/com/digitalpebble/behemoth/ClassifierJob.java:170-177 | a classifier error leaves the metadata unchanged and counts EXCEPTION |
| `MapperProperties.ClassifiedDocumentIsLabeled` | src/main/java/com/digitalpebble/behemoth/ClassifierJob.java:178-181 | the feature holds the best label of the scores, the other entries are kept, and the label's counter is counted |
| `MapperProperties.OneRecordOneCounter` | src/main/java/com/digitalpebble/behemoth/ClassifierJob.java:156-182 | a normal return emits one record under the key and raises exactly one counter by exactly one; an error emits and counts nothing |
| `MapperProperties.DefaultsWhenUnset` | src/main/java/com/digitalpebble/behemoth/ClassifierJob.java:188-189 | with the properties unset the flag is false and the feature name is "label" |
| `MapperProperties.ArchiveListDecidesModelFile` | src/main/java/com/digitalpebble/behemoth/ClassifierJob.java:198-217 | an empty or unmatched list is fatal, a missing list hands exactly the configured path string to the loader, and a match is preferred to later entries |
| `MapperProperties.AnnotationIsIdempotent` | src/main/java/com/digitalpebble/behemoth/ClassifierJob.java:179 | writing the same outcome twice leaves the metadata of one write |
| `MapperProperties.MapTwice` | src/main/java/com/digitalpebble/behemoth/ClassifierJob.java:156-182 | mapping a document twice reaches the same outcome and leaves the metadata of one run |
| `Driver.Run` | src/main/java/com/digitalpebble/behemoth/ClassifierJob.java:69-141 | help returns 0 first; a missing option returns -1; otherwise the job with the model path and no reducers is submitted, the status is 0, and the output is deleted exactly when the job failed; an empty input or output path throws before submission; nothing is submitted on those paths; a parse error ends in a null command line |
| `Driver.WorkerSeesDriverModel` | src/main/java/com/digitalpebble/behemoth/ClassifierJob.java:128 | a worker of the submitted job reads back the driver's model path and, in local mode, hands exactly that path string to the loader |

## Left out

- Hadoop job plumbing (input and output formats, key and value classes, `JobClient.runJob`, the job name): reduced to the submitted `JobSpec` and a "job succeeded" input.
- The distributed cache and `FileSystem.delete`: the archive list is an input of `Configure`, deletion is the `outputDeleted` flag. Whether the driver's `addCacheFile` and the worker's `getLocalCacheArchives` agree is not modelled.
- The internals of the tokenizer, of `createDocument`, `classify`, `getBestLabel` and `getClassifier`: opaque functions. Score arithmetic is floating point and not modelled; scores are `real`.
- Exceptions raised by `createDocument`, the tokenizer or `getBestLabel`: they propagate out of `map` uncounted; the model treats these calls as total.
- URL construction and `getPath()` in `configure` (lines 201, 209, 213): the model hands the selected path string itself to the loader, while the code passes `new URL("file://" + path).getPath()`. These differ for a relative path (its first segment becomes the URL's host, so "models/spam.model" loads "/spam.model"), for a path containing `?` or `#` (the rest is cut off) and for a scheme-qualified path ("hdfs://nn/m" loads "//nn/m"); malformed URLs are not modelled either.
- Driver.Run: of the errors thrown while building the job, only the empty input or output path is modelled; other strings that Hadoop's `Path` rejects, a model path that is not a valid `URI`, and I/O errors of `FileSystem.get` or of the deletion are not.
- Logging, `printStackTrace`, printing usage, and the unused `DocumentFilter`.
- Document fields other than text and metadata; a metadata map that was never created is treated like an empty one.
- Cluster parallelism: each worker is sequential and owns its mapper.
- Mapper.LoadModel: an unset model path is always a fatal initialisation error; with no archive list the code would instead build a URL from the string "null" and try to load its path.
- Framework.Get: `${...}` variable expansion in configured values is not modelled.
- Framework.GetOrNull: `${...}` variable expansion in configured values is not modelled.
- Framework.GetBoolean: variable expansion and the trimming and case folding of newer Hadoop versions are not modelled; only the exact strings "true" and "false" are read.
