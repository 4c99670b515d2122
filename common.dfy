/** Shared vocabulary of the Family Connect model: optional values, row ids,
    outgoing mail and JavaScript truthiness of request-body fields. */
module Common {

  datatype Option<+T> = None | Some(value: T)

  /** Row ids. The database generates them; the model draws them from a counter. */
  type Id = nat

  /** A message handed to the email service (subject and HTML body as built by the route). */
  datatype Mail = Mail(to: string, replyTo: Option<string>, subject: string, html: string)

  /** A string field of a JSON request body is truthy when it is present and not "". */
  predicate Present(field: Option<string>)
  {
    field.Some? && field.value != ""
  }

  /** `part` occurs in `text` as one contiguous piece. */
  ghost predicate Contains(text: string, part: string)
  {
    exists i, j :: 0 <= i <= j <= |text| && text[i..j] == part
  }

  lemma ContainsInfix(before: string, part: string, after: string)
    ensures Contains(before + part + after, part)
  {
    var text := before + part + after;
    assert text[|before|..|before| + |part|] == part;
  }
}
