/**
  Failure-carrying values shared by the dataset analyzer, and the ways an
  analysis run can abort. The analyzer never catches an exception: each of
  the errors below ends the run (yolo_dataset_stats.py:30-73).
 */
module Outcomes {

  datatype Option<+T> = None | Some(value: T)

  datatype Result<+T> = Success(value: T) | Failure(error: Error)

  /** The exceptions the analysis kernel can raise. */
  datatype Error =
    | MissingDirectory(path: string)  // os.listdir on a directory that does not exist
    | BlankLine                       // IndexError: `line.split()[0]` on a whitespace-only line
    | NotAnInteger(token: string)     // ValueError: `int(token)` on a non-integer token
    | UnknownClass(id: int)           // KeyError: `class_counts[class_id]` for an id not in `names`
}
