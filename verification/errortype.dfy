/** The five categories an error can belong to. The category is informational
    metadata for callers (for example to choose a status code); nothing in the
    result model inspects it to decide success or failure. */
module ErrorTypes {

  datatype ErrorType = Failure | Validation | Problem | NotFound | Conflict

}
