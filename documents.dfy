/**
 * Corpus documents and web results as the query path sees them: dicts whose
 * text fields come from a CSV through pandas (so a field can be NaN) plus the
 * numeric keys the pipeline adds as it goes.
 */
module Documents {
  import opened Wrappers

  /**
   * A text-like field: Python `None`, a float NaN, a string, or any other
   * value, carried with the text that `str()` renders it as.
   */
  datatype Cell = Null | NaN | Text(s: string) | Other(shown: string)

  /**
   * A document dict. `fields` holds the corpus columns (`title`, `author`,
   * `url`, `sentiment`, `summary`, ...); the numeric keys are optional because
   * the dict has them only once a stage has written them.
   */
  datatype Doc = Doc(
    fields: map<string, Cell>,
    score: Option<real>,
    rerankScore: Option<real>,
    rrfScore: Option<real>,
    docId: Option<int>)

  /** The `score` of a web result: absent, `None`, NaN or a number. */
  datatype WebScore = Missing | NullScore | NaNScore | Score(r: real)

  datatype WebResult = WebResult(fields: map<string, Cell>, score: WebScore)

  /** `d.get(key, default)` on a field dict. */
  function FieldOr(fields: map<string, Cell>, key: string, default: Cell): Cell
  {
    if key in fields then fields[key] else default
  }
}
