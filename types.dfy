/** Values shared by the steps of the multi-item calorie estimation script. */
module Types {

  /** The outcome of a step that can raise: a value, or the error it raised. */
  datatype Result<T, E> = Ok(value: T) | Err(error: E)

  /** One detection box as the detector reports it: float pixel coordinates (x1, y1, x2, y2). */
  datatype Box = Box(x1: real, y1: real, x2: real, y2: real)

  /** The integer rectangle the uploaded image is cropped to. */
  datatype Region = Region(x1: int, y1: int, x2: int, y2: int)

  /** The zero-shot classifier's top-ranked label and its score for one crop. */
  datatype Prediction = Prediction(guess: string, score: real)

  /** One row of the calorie table, with its columns navn and kcal_pr_100g. */
  datatype Row = Row(navn: string, kcal100: real)

  /** Below this score the user is asked to pick the ingredient by hand. */
  const Threshold: real := 0.7

  /** The bounds of the grams widget. */
  const MinGrams: int := 1
  const MaxGrams: int := 2000
}
