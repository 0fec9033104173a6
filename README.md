# insightagent: a Dafny model of `InsightAnalyzer.analyze_review`

`InsightAnalyzer.analyze_review` turns one customer review into an analysis
record. It classifies the review's sentiment with a pretrained classifier and
maps the top label through a three-entry table. It asks a language model for
the review's theme and strips the answer. It asks the model again for a
structured insight, given the text, the sentiment and the theme. It parses the
stripped answer as JSON, or substitutes a fixed error record when parsing
fails. It returns a four-field record: `text`, `sentiment`, `theme`,
`insights`.

The method is straight-line code over collaborators it reaches through `self`.
The model is a pure function, `Analyzer.AnalyzeReview`, over a `Collaborators`
value. That value holds the classifier, the theme chain, the insight chain,
`json.loads` (as a partial function returning `Option<Json>`) and the whitespace
class of `str.strip` (as an abstract predicate). Exceptions become a
`Result<AnalysisResult, Failure>`. A failure carries no record, so "no partial
record on failure" holds by the shape of the type.

Files:
- `Wrappers.dfy`: `Option` and `Result`.
- `Json.dfy`: the values `json.loads` can return. There is no parser.
- `Whitespace.dfy`: Python's `str.strip()` over an abstract whitespace
  predicate. Its contract and lemmas show that the result has no edge
  whitespace and is the whitespace-framed middle of the input. They show
  that this middle is unique, and that stripping twice equals stripping once.
- `Analyzer.dfy`: the label table, label normalisation, the parse-or-fallback
  step, the record assembly, and the properties of `analyze_review`. It also
  holds three worked scenarios over stub collaborators.

Three edge cases follow the code exactly. The label table is a plain dict
indexed without a default, so any other label raises `KeyError`; the model
makes that the failure `UnknownSentimentLabel`. Indexing `[0]` on an empty
classifier output raises `IndexError`; the model makes that the failure
`NoPrediction`. `json.loads` may return any JSON value, not only an object,
and the insights are whatever it returns.

Determinism needs no separate proof: `AnalyzeReview` is a function, so the
same collaborators and the same text give the same outcome.
`SameAnswersSameRecord` states it for two different sets of collaborators.
They must give the same classifier output and theme completion for this
review, and the same insight completion for this review with every sentiment
and theme. Their parsers must agree on every string, and their whitespace
predicates on every character. Under these conditions they give the same
outcome.

## Model

| member | source | states |
|---|---|---|
| `Analyzer.NormalizeLabel` | src/analyzer.py:60-61 | the exhaustive match yields a sentiment exactly when the raw label is a key of the source table, and then that sentiment's name is the table's value for the label |
| `Analyzer.Name` | src/analyzer.py:60 | every sentiment name is one of the table's three values (`negative`, `neutral`, `positive`) |
| `Analyzer.AnalyzeReview` | src/analyzer.py:58-79 | an empty classifier output fails with `NoPrediction`; a top label outside the table fails with `UnknownSentimentLabel` and yields no record; on success the sentiment is the table's image of the top label, the text is the input unchanged, and the theme is the stripped theme completion; a failing theme call propagates; the insight chain is called with the text, the mapped sentiment name and the stripped theme; once the label is known and the theme chain answers, a record is returned exactly when the insight chain answers, whether or not its output parses, and a failing insight chain gives exactly its own failure; in a record, if the stripped insight output parses, the insights are exactly the parsed value, otherwise exactly the error record |
| `Analyzer.AsDict` | src/analyzer.py:74-79 | the returned dict has exactly the keys `text`, `sentiment`, `theme`, `insights`; `text` is the input string, `sentiment` is the name of the record's sentiment (one of the three table values), `theme` is the record's theme string, `insights` is the insights value unchanged |
| `Analyzer.ParseInsights` | src/analyzer.py:69-72 | the result is either the parser's value for the stripped completion or the error record: the parsed value as it is when parsing succeeds, the error record `{"error": "Не удалось спарсить инсайты"}` when it fails |
| `Analyzer.ParseIgnoresSurroundingSpace` | src/analyzer.py:70 | the parser is given the stripped completion, so whitespace padding around the insight completion never changes the insights |
| `Analyzer.OnlyTopLabelMatters` | src/analyzer.py:59-61 | replacing the classifier by any other whose top-ranked label is the same leaves the outcome unchanged: scores and lower-ranked predictions are never consulted |
| `Analyzer.ThemeIsStrippedCompletion` | src/analyzer.py:62 | on success the theme has no leading or trailing whitespace, is a contiguous stretch of the raw completion framed by whitespace only, and is left unchanged by a second strip |
| `Analyzer.SameAnswersSameRecord` | src/analyzer.py:58-79 | two sets of collaborators give the same outcome when they agree on the classifier output and theme completion for this review, on the insight completion for this review with every sentiment and theme, on the parser for every string, and on the whitespace predicate for every character |
| `Analyzer.DeliveryScenario` | src/analyzer.py:58-79 | a `NEGATIVE` delivery review whose theme completion is `Доставка` plus a newline, and whose insight completion is a well-formed JSON object padded with whitespace, yields sentiment `negative`, theme `Доставка` and exactly that object as insights |
| `Analyzer.ProseWrappedScenario` | src/analyzer.py:69-72 | an insight completion of the form `Sure, here is the JSON: {...}` does not parse, and the record is still returned, with the error record as insights |
| `Analyzer.UnknownLabelScenario` | src/analyzer.py:61 | a top label `MIXED` fails the analysis with `UnknownSentimentLabel("MIXED")` |
| `Whitespace.LeadingSpace` | src/analyzer.py:62 | the count of leading characters `strip` removes: all are whitespace, and the next character, if any, is not |
| `Whitespace.TrailingSpace` | src/analyzer.py:62 | the count of trailing characters `strip` removes: all are whitespace, and the character before them, if any, is not |
| `Whitespace.Strip` | src/analyzer.py:62 | `str.strip()`: the result neither starts nor ends with whitespace, and it is the input's contiguous middle with only whitespace before and after it |
| `Whitespace.StripUnique` | src/analyzer.py:62 | for any split of a string into whitespace, a part without edge whitespace, and whitespace, `strip` returns that part |
| `Whitespace.StripIdempotent` | src/analyzer.py:62 | stripping an already stripped string changes nothing |
| `Whitespace.StripAllSpace` | src/analyzer.py:62 | a completion made only of whitespace strips to the empty string |
| `Whitespace.StripIgnoresPadding` | src/analyzer.py:62 | whitespace padding added on either side of a string does not change what it strips to |
| `Whitespace.StripRespectsSpaceClass` | src/analyzer.py:62 | `strip` depends on the whitespace predicate only through its values |
| `Whitespace.LeadingSpacePast` | src/analyzer.py:62 | in front of text that does not start with whitespace, the leading whitespace removed is exactly the whitespace prefix |
| `Whitespace.TrailingSpacePast` | src/analyzer.py:62 | behind text that does not end with whitespace, the trailing whitespace removed is exactly the whitespace suffix |

## Left out

- Collaborator construction in `__init__` (src/analyzer.py:9-22) is left out: the language-model client, credentials, certificate settings, temperature and loading the classifier. This is library setup, not local logic.
- `_init_chains` (src/analyzer.py:24-55) is left out: the prompt wording, template rendering and chain execution are library behaviour. Each chain is one collaborator function from its inputs to a completion. The `input_variables` list at line 33 is not modelled.
- The internals of `json.loads` are left out. It is an abstract partial function, where a `JSONDecodeError` becomes `None`. Other exceptions it could raise, such as `RecursionError` on very deep nesting, are not modelled.
- Transport and service errors of the two chains are modelled only as an opaque reason string, `UpstreamServiceFailure`, which propagates. Retries and timeouts do not exist in the source.
- Exceptions thrown by the classifier are not modelled. It runs locally and is a total function here.
- Model non-determinism and output quality are left out. The collaborators are fixed functions.
- The exact Unicode whitespace set of Python's `str.strip` is an abstract predicate, `isSpace`.
- Key order of Python dicts is not modelled: a JSON object is a `map`. Duplicate-key handling is part of `json.loads` and is not modelled either.
- Python's int/float distinction for JSON numbers is not kept: numbers are `real`. The values `NaN`, `Infinity` and `-Infinity`, which `json.loads` accepts by default, have no `real` counterpart and are not modelled.
- Theme taxonomy membership and insight field shape are not validated. The source checks neither, so the model checks neither.
