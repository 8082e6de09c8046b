/** DogTrainer::DogApiException: the error for a non-success Datadog
    reply, carrying the status code, the reply body and a message that lists
    the reply's errors one per line. `show` is Ruby's `to_s`. */
module ApiException {
  import opened Values

  const StatusPrefix := "Datadog API call returned status "

  /** `response[0]`; an empty response has nil there. */
  function StatusCode(response: seq<Value>): Value
  {
    if |response| > 0 then response[0] else VNull
  }

  /** `response[1]` when the response has more than one element, else `{}`. */
  function Content(response: seq<Value>): Value
  {
    if |response| > 1 then response[1] else VHash(map[])
  }

  /** Each error followed by a newline, in list order. */
  function ErrorLines(errors: seq<Value>, show: Value -> string): string
    decreases |errors|
  {
    if |errors| == 0 then ""
    else ErrorLines(errors[..|errors| - 1], show) + show(errors[|errors| - 1]) + "\n"
  }

  /** The bodies on which building the message raises: `include?` is not
      defined on nil, numbers or booleans (NoMethodError), and an array that
      holds the element "errors" is then indexed with a string (TypeError). */
  predicate Raises(content: Value)
  {
    match content
    case VHash(_) => false
    case VStr(_) => false
    case VList(items) => VStr("errors") in items
    case _ => true
  }

  /** Ruby's `include?`: a key of a hash, a substring of a string, an
      element of an array. */
  function Includes(content: Value, key: string): bool
  {
    match content
    case VHash(fields) => key in fields
    case VStr(s) => HasSubstring(s, key)
    case VList(items) => VStr(key) in items
    case _ => false
  }

  /** Ruby's `content[key]` with a string key: the value stored in a hash,
      or, on a string, the key itself when it occurs and nil otherwise. */
  function Subscript(content: Value, key: string): Value
  {
    match content
    case VHash(fields) => Get(fields, key)
    case VStr(s) => if HasSubstring(s, key) then VStr(key) else VNull
    case _ => VNull
  }

  /** The message: the status line, then, when the body includes `errors`,
      ":\n" and what `content['errors']` holds (a list one per line,
      anything else as one line). */
  function Message(statuscode: Value, content: Value, show: Value -> string): string
    requires !Raises(content)
  {
    var head := StatusPrefix + show(statuscode);
    if !Includes(content, "errors") then head
    else
      head + ":\n" + match Subscript(content, "errors")
        case VList(errors) => ErrorLines(errors, show)
        case error => show(error) + "\n"
  }

  /** The `each { |e| msg << "#{e}\n" }` loop. */
  method AppendErrorLines(msg: string, errors: seq<Value>, show: Value -> string) returns (out: string)
    ensures out == msg + ErrorLines(errors, show)
  {
    out := msg;
    for i := 0 to |errors|
      invariant out == msg + ErrorLines(errors[..i], show)
    {
      assert errors[..i + 1][..i] == errors[..i];
      out := out + show(errors[i]) + "\n";
    }
    assert errors[..|errors|] == errors;
  }

  class DogApiException {
    const statuscode: Value
    const content: Value
    const message: string

    /** The source raises, instead of building the message, on the bodies
        `Raises` names. */
    constructor (response: seq<Value>, show: Value -> string)
      requires !Raises(Content(response))
      ensures statuscode == StatusCode(response) && content == Content(response)
      ensures message == Message(statuscode, content, show)
    {
      var code := StatusCode(response);
      var body := Content(response);
      var msg := StatusPrefix + show(code);
      if Includes(body, "errors") {
        msg := msg + ":\n";
        match Subscript(body, "errors")
        case VList(errors) =>
          msg := AppendErrorLines(msg, errors, show);
        case error =>
          msg := msg + show(error) + "\n";
      }
      statuscode := code;
      content := body;
      message := msg;
    }
  }

  /** The message always begins with the status line. */
  lemma MessageStartsWithStatus(statuscode: Value, content: Value, show: Value -> string)
    requires !Raises(content)
    ensures StartsWith(Message(statuscode, content, show), StatusPrefix + show(statuscode))
  {
    var head := StatusPrefix + show(statuscode);
    if Includes(content, "errors") {
      StartsWithConcat(head, Message(statuscode, content, show)[|head|..]);
      assert Message(statuscode, content, show) == head + Message(statuscode, content, show)[|head|..];
    }
  }

  /** A hash without an errors key gives the bare status line. */
  lemma NoErrorsBareMessage(statuscode: Value, content: map<string, Value>, show: Value -> string)
    requires "errors" !in content
    ensures Message(statuscode, VHash(content), show) == StatusPrefix + show(statuscode)
  {
  }

  /** A string body is searched for the substring "errors"; when it occurs,
      `content['errors']` is that substring, which becomes the one line. */
  lemma StringBodyMessage(statuscode: Value, s: string, show: Value -> string)
    requires ShowsStringsVerbatim(show)
    ensures Message(statuscode, VStr(s), show)
         == if Contains(s, "errors") then StatusPrefix + show(statuscode) + ":\n" + "errors\n"
            else StatusPrefix + show(statuscode)
  {
    HasSubstringIffContains(s, "errors");
  }

  /** An array body that does not hold the element "errors" gives the bare
      status line, whatever strings its elements contain. */
  lemma ArrayBodyBareMessage(statuscode: Value, items: seq<Value>, show: Value -> string)
    requires VStr("errors") !in items
    ensures Message(statuscode, VList(items), show) == StatusPrefix + show(statuscode)
  {
  }

  /** `DogApiException.new(['500', 'no errors here'])`: the substring found
      in the body is the error line. */
  lemma ExampleSubstringMessage(show: Value -> string)
    requires ShowsStringsVerbatim(show)
    ensures Message(VStr("500"), VStr("no errors here"), show) == StatusPrefix + "500" + ":\n" + "errors\n"
  {
    var s := "no errors here";
    assert s[3..9] == "errors";
    StringBodyMessage(VStr("500"), s, show);
  }

  /** The lines of a list of errors are the lines of its parts, in order. */
  lemma {:induction false} ErrorLinesAppend(a: seq<Value>, b: seq<Value>, show: Value -> string)
    ensures ErrorLines(a + b, show) == ErrorLines(a, show) + ErrorLines(b, show)
    decreases |b|
  {
    if |b| == 0 {
      assert a + b == a;
    } else {
      var b' := b[..|b| - 1];
      assert (a + b)[..|a + b| - 1] == a + b';
      ErrorLinesAppend(a, b', show);
    }
  }

  /** A single error is one line. */
  lemma ErrorLinesSingle(e: Value, show: Value -> string)
    ensures ErrorLines([e], show) == show(e) + "\n"
  {
    assert [e][..0] == [];
  }

  /** A list of errors gives one line per error, after the status line. */
  lemma ExampleListMessage(show: Value -> string)
    requires ShowsStringsVerbatim(show)
    ensures Message(VStr("500"), VHash(map["errors" := VList([VStr("foo"), VStr("bar\nbaz")])]), show)
         == StatusPrefix + "500" + ":\n" + "foo\n" + "bar\nbaz\n"
  {
    ErrorLinesAppend([VStr("foo")], [VStr("bar\nbaz")], show);
    ErrorLinesSingle(VStr("foo"), show);
    ErrorLinesSingle(VStr("bar\nbaz"), show);
    assert [VStr("foo")] + [VStr("bar\nbaz")] == [VStr("foo"), VStr("bar\nbaz")];
  }

  /** A single error string gives one line. */
  lemma ExampleStringMessage(show: Value -> string)
    requires ShowsStringsVerbatim(show)
    ensures Message(VStr("500"), VHash(map["errors" := VStr("foo")]), show) == StatusPrefix + "500" + ":\n" + "foo\n"
  {
  }
}
