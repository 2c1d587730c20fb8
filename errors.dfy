/** The two runtime errors of `get(id)` and the result type that carries them. */
module Errors {

  /** `object_not_found` and `multiple_objects_found`, each remembering the id asked for. */
  datatype Failure<ID> = ObjectNotFound(id: ID) | MultipleObjectsFound(id: ID)

  /** What `get(id)` yields: the element found, or the error it throws. */
  datatype Result<T, ID> = Ok(value: T) | Fail(failure: Failure<ID>)

  const NotFoundPrefix: string := "No object found for id '"
  const MultiplePrefix: string := "Multiple objects found for id '"

  /** The `what()` text each exception is built with. */
  function Message(f: Failure<string>): (msg: string)
    ensures |msg| > 0 && msg[|msg| - 1] == '\''
  {
    match f
    case ObjectNotFound(id) => NotFoundPrefix + id + "'"
    case MultipleObjectsFound(id) => MultiplePrefix + id + "'"
  }

  /** What reading a message back gives: the error it was built from, or nothing for a
      text that no exception produces. */
  datatype Parsed = Parsed(failure: Failure<string>) | Unrecognised

  /** The message tells which error it was and for which id: it can be parsed back. */
  function ParseMessage(msg: string): Parsed {
    if |msg| < 1 || msg[|msg| - 1] != '\'' then Unrecognised
    else if |msg| >= |NotFoundPrefix| + 1 && msg[..|NotFoundPrefix|] == NotFoundPrefix then
      Parsed(ObjectNotFound(msg[|NotFoundPrefix|..|msg| - 1]))
    else if |msg| >= |MultiplePrefix| + 1 && msg[..|MultiplePrefix|] == MultiplePrefix then
      Parsed(MultipleObjectsFound(msg[|MultiplePrefix|..|msg| - 1]))
    else
      Unrecognised
  }

  lemma MessageRoundTrip(f: Failure<string>)
    ensures ParseMessage(Message(f)) == Parsed(f)
  {
    var msg := Message(f);
    match f
    case ObjectNotFound(id) =>
      assert msg[..|NotFoundPrefix|] == NotFoundPrefix;
      assert msg[|NotFoundPrefix|..|msg| - 1] == id;
    case MultipleObjectsFound(id) =>
      assert msg[..|NotFoundPrefix|][0] == 'M';
      assert msg[..|MultiplePrefix|] == MultiplePrefix;
      assert msg[|MultiplePrefix|..|msg| - 1] == id;
  }

  /** Distinct errors never share a message. */
  lemma MessageInjective(f1: Failure<string>, f2: Failure<string>)
    requires Message(f1) == Message(f2)
    ensures f1 == f2
  {
    MessageRoundTrip(f1);
    MessageRoundTrip(f2);
  }
}
