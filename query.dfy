/**
  URL query strings: a list of `name=value` fields joined by '&', and the
  reading of such a string back into its fields.
 */
module QueryStrings {
  import opened Wrappers
  import opened Text

  /** A field's text: its name, '=', its value. */
  function FieldText(field: (string, string)): string {
    field.0 + "=" + field.1
  }

  function FieldTexts(fields: seq<(string, string)>): (texts: seq<string>)
    ensures |texts| == |fields|
  {
    seq(|fields|, k requires 0 <= k < |fields| => FieldText(fields[k]))
  }

  /** The query string of a list of fields. */
  function Query(fields: seq<(string, string)>): string {
    Join(FieldTexts(fields), '&')
  }

  /** Fields a query string can carry unambiguously: no '=' in a name, no '&' anywhere. */
  predicate WellFormed(fields: seq<(string, string)>) {
    forall k :: 0 <= k < |fields| ==> '=' !in fields[k].0 && '&' !in fields[k].0 && '&' !in fields[k].1
  }

  /** One field, split at its first '='; None if it has no '='. */
  function ParseField(text: string): (r: Option<(string, string)>) {
    if '=' in text then
      var i := IndexOf(text, '=');
      Some((text[..i], text[i + 1..]))
    else None
  }

  /** Every text read as a field, in order; None if any of them has no '='. */
  function ParseFields(texts: seq<string>): (r: Option<seq<(string, string)>>)
    ensures r.Some? ==> |r.value| == |texts|
  {
    if |texts| == 0 then Some([])
    else
      match (ParseField(texts[0]), ParseFields(texts[1..]))
      case (Some(f), Some(rest)) => Some([f] + rest)
      case _ => None
  }

  /** The fields of a query string. */
  function ParseQuery(query: string): (r: Option<seq<(string, string)>>) {
    ParseFields(Split(query, '&'))
  }

  /** The value of the first field called `name`, if there is one. */
  function Lookup(fields: seq<(string, string)>, name: string): (r: Option<string>)
    ensures r.Some? <==> exists k :: 0 <= k < |fields| && fields[k].0 == name
  {
    if |fields| == 0 then None
    else if fields[0].0 == name then Some(fields[0].1)
    else
      assert forall k :: 1 <= k < |fields| ==> fields[k] == fields[1..][k - 1];
      Lookup(fields[1..], name)
  }

  /** Lookup finds the value of the first field with the name. */
  lemma {:induction false} LookupAt(fields: seq<(string, string)>, k: nat, name: string)
    requires k < |fields| && fields[k].0 == name
    requires forall j :: 0 <= j < k ==> fields[j].0 != name
    ensures Lookup(fields, name) == Some(fields[k].1)
    decreases k
  {
    if k > 0 {
      LookupAt(fields[1..], k - 1, name);
    }
  }

  /** A field's text reads back as the field when its name has no '='. */
  lemma ParseFieldText(field: (string, string))
    requires '=' !in field.0
    ensures ParseField(FieldText(field)) == Some(field)
  {
    var (name, value) := field;
    IndexOfAfter(name, '=', value);
    assert "=" == ['='];
    assert (name + "=" + value)[..|name|] == name;
    assert (name + "=" + value)[|name| + 1..] == value;
  }

  lemma {:induction false} ParseFieldTexts(fields: seq<(string, string)>)
    requires forall k :: 0 <= k < |fields| ==> '=' !in fields[k].0
    ensures ParseFields(FieldTexts(fields)) == Some(fields)
    decreases |fields|
  {
    if |fields| > 0 {
      ParseFieldText(fields[0]);
      ParseFieldTexts(fields[1..]);
      assert FieldTexts(fields)[1..] == FieldTexts(fields[1..]);
      assert fields == [fields[0]] + fields[1..];
    }
  }

  /** A non-empty list of well-formed fields is what its query string reads back as. */
  lemma QueryRoundTrip(fields: seq<(string, string)>)
    requires |fields| > 0 && WellFormed(fields)
    ensures ParseQuery(Query(fields)) == Some(fields)
  {
    var texts := FieldTexts(fields);
    forall k | 0 <= k < |texts|
      ensures '&' !in texts[k]
    {
      assert "=" == ['='];
      assert texts[k] == fields[k].0 + ['='] + fields[k].1;
    }
    SplitJoin(texts, '&');
    ParseFieldTexts(fields);
  }
}
