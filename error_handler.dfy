/**
 * The Express error middleware shared by the services: it maps a thrown
 * error, by its `name`, to one JSON error response whose HTTP status equals
 * the body's `statusCode`.
 */
module ErrorHandler {
  import opened Js
  import opened ApiResponse

  /** `{field: error.path, message: error.message}` for each ORM validation item, in order. */
  function ValidationItems(items: seq<ErrorItem>): (r: seq<FieldError>)
    ensures |r| == |items|
    ensures forall i :: 0 <= i < |items| ==> r[i] == FieldError(items[i].path, items[i].message)
  {
    seq(|items|, i requires 0 <= i < |items| => FieldError(items[i].path, items[i].message))
  }

  /** `${value}` of an error item's value: a missing value prints as "null". */
  function ValueText(v: Option<string>): string
  {
    match v
    case None => "null"
    case Some(s) => s
  }

  /** `{field: error.path, message: `${error.value} already exists`}` for each unique-constraint item. */
  function UniqueItems(items: seq<ErrorItem>): (r: seq<FieldError>)
    ensures |r| == |items|
    ensures forall i :: 0 <= i < |items| ==>
      r[i] == FieldError(items[i].path, ValueText(items[i].value) + " already exists")
  {
    seq(|items|, i requires 0 <= i < |items| =>
      FieldError(items[i].path, ValueText(items[i].value) + " already exists"))
  }

  /** `errorHandler(err, req, res, next)`: the response written for a thrown error. */
  function HandleError(err: Exception): (r: Reply)
    ensures r.status == r.body.statusCode && !r.body.Succeeded()
    ensures err.name == "SequelizeValidationError" ==>
      r.body == Validation(ValidationItems(err.errors))
    ensures err.name == "SequelizeUniqueConstraintError" ==>
      r.body == Validation(UniqueItems(err.errors))
    ensures err.name == "SequelizeForeignKeyConstraintError" ==>
      r.body == ErrorBody("Invalid reference provided", 422, None)
    ensures err.name == "SequelizeEmptyResultError" ==>
      r.body == ErrorBody("Resource not found", 404, None)
    ensures err.name !in {"SequelizeValidationError", "SequelizeUniqueConstraintError",
                          "SequelizeForeignKeyConstraintError", "SequelizeEmptyResultError"} ==>
      r.body == ErrorBody(if err.message == "" then "Server Error" else err.message, 500, None)
  {
    if err.name == "SequelizeValidationError" then
      Send(Validation(ValidationItems(err.errors)))
    else if err.name == "SequelizeUniqueConstraintError" then
      Send(Validation(UniqueItems(err.errors)))
    else if err.name == "SequelizeForeignKeyConstraintError" then
      Send(Error("Invalid reference provided", 422))
    else if err.name == "SequelizeEmptyResultError" then
      Send(NotFound())
    else
      Send(Error(if err.message == "" then "Server Error" else err.message))
  }

  /** Every error is answered with one of three statuses, and never with a success body. */
  lemma {:induction false} StatusesAnswered(err: Exception)
    ensures HandleError(err).status in {404, 422, 500}
    ensures HandleError(err).status == 404 <==> err.name == "SequelizeEmptyResultError"
    ensures HandleError(err).body.errors.Some? <==>
      err.name in {"SequelizeValidationError", "SequelizeUniqueConstraintError"}
  {
  }

  /**
   * The plain errors the services throw for a missing row ("User not found",
   * "Product not found") are answered with 500 and their own message, not 404.
   */
  lemma PlainNotFoundIs500(message: string)
    requires message != ""
    ensures HandleError(PlainError(message)) == Reply(500, ErrorBody(message, 500, None))
  {
  }
}
