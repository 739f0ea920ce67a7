/**
 * The request-body validation middleware: the schema (a library object) is
 * an oracle that reports its error details; the middleware either passes the
 * request on or answers 422 with one entry per detail.
 */
module Validation {
  import opened Js
  import opened JsString
  import opened ApiResponse

  /** A segment of a detail's path: an object key or an array index. */
  datatype PathKey = Key(name: string) | Index(i: nat)

  /** One schema error detail: where, and what is wrong. */
  datatype Detail = Detail(path: seq<PathKey>, message: string)

  /** What the middleware does with the request. */
  datatype Decision = CallNext | Respond(reply: Reply)

  /** A path segment as `join` prints it. */
  function KeyText(k: PathKey): string
  {
    match k
    case Key(name) => name
    case Index(i) => DecimalString(i)
  }

  function KeyTexts(path: seq<PathKey>): (r: seq<string>)
    ensures |r| == |path| && forall i :: 0 <= i < |path| ==> r[i] == KeyText(path[i])
  {
    seq(|path|, i requires 0 <= i < |path| => KeyText(path[i]))
  }

  /** `detail.path.join('.')`. */
  function FieldName(path: seq<PathKey>): string
  {
    Join(KeyTexts(path), ".")
  }

  /** `{field, message}` for each detail, in order: with `abortEarly: false` all are reported. */
  function DetailErrors(details: seq<Detail>): (r: seq<FieldError>)
    ensures |r| == |details|
    ensures forall i :: 0 <= i < |details| ==>
      r[i] == FieldError(Some(FieldName(details[i].path)), details[i].message)
  {
    seq(|details|, i requires 0 <= i < |details| =>
      FieldError(Some(FieldName(details[i].path)), details[i].message))
  }

  /**
   * `validate(schema)(req, res, next)` where `schemaError` is what
   * `schema.validate(req.body, {abortEarly: false})` reports: `None` when the
   * body is valid, otherwise the error's details.
   */
  function Validate(schemaError: Option<seq<Detail>>): (d: Decision)
    ensures d.CallNext? <==> schemaError.None?
    ensures schemaError.Some? ==>
      d.reply.status == 422 && d.reply.body == Validation(DetailErrors(schemaError.value))
  {
    match schemaError
    case None => CallNext
    case Some(details) => Respond(Send(Validation(DetailErrors(details))))
  }

  /**
   * The field name keeps the path recoverable: when no key contains a dot,
   * splitting the field name on "." gives back the path's segments.
   */
  lemma FieldNameSplits(path: seq<PathKey>)
    requires |path| >= 1
    requires forall i :: 0 <= i < |path| ==> path[i].Key? ==> '.' !in path[i].name
    ensures Split(FieldName(path), '.') == KeyTexts(path)
  {
    KeyTextsWithoutDot(path);
    SplitOfJoin(KeyTexts(path), '.');
  }

  lemma KeyTextsWithoutDot(path: seq<PathKey>)
    requires forall i :: 0 <= i < |path| ==> path[i].Key? ==> '.' !in path[i].name
    ensures forall i :: 0 <= i < |path| ==> '.' !in KeyTexts(path)[i]
  {
    forall i | 0 <= i < |path|
      ensures '.' !in KeyTexts(path)[i]
    {
      var t := KeyTexts(path)[i];
      if path[i].Index? {
        assert forall k :: 0 <= k < |t| ==> t[k] != '.';
      }
    }
  }

  /** Splitting a join of separator-free parts gives the parts back. */
  lemma {:induction false} SplitOfJoin(parts: seq<string>, sep: char)
    requires |parts| >= 1
    requires forall i :: 0 <= i < |parts| ==> sep !in parts[i]
    ensures Split(Join(parts, [sep]), sep) == parts
    decreases |parts|
  {
    if |parts| == 1 {
      SplitWithoutSeparator(parts[0], sep);
    } else {
      SplitOfJoin(parts[1..], sep);
      SplitAfterPart(parts[0], Join(parts[1..], [sep]), sep);
      assert parts == [parts[0]] + parts[1..];
    }
  }
}
