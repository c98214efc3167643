/**
 * What the lead form sends when it is submitted: every answer that is
 * neither `null` nor empty, under its own key and in key order, followed by
 * the bill file when one was chosen.
 */
module Submission {
  import opened Wrappers
  import opened JsValues
  import opened Uploads
  import Form = FormAnswers

  /** One part of the multipart request body. */
  datatype Entry = TextEntry(field: Form.Field, value: string) | FileEntry(file: BillFile)

  /** The parts appended for `fields`, visited in order, keeping those neither `null` nor `''`. */
  function TextEntries(a: Form.Answers, fields: seq<Form.Field>): (r: seq<Entry>)
    ensures |r| <= |fields|
    ensures forall i :: 0 <= i < |r| ==> r[i].TextEntry? && r[i].value != ""
  {
    if fields == [] then []
    else
      var f := fields[|fields| - 1];
      TextEntries(a, fields[..|fields| - 1])
        + (if Truthy(Form.Get(a, f)) then [TextEntry(f, Form.Get(a, f).value)] else [])
  }

  /** The whole request body: the answers in key order, then the bill file if there is one. */
  function Submitted(a: Form.Answers, billFile: Option<BillFile>): (r: seq<Entry>)
    ensures |r| <= |Form.AllFields| + 1
    ensures billFile.Some? <==> |r| > 0 && r[|r| - 1].FileEntry?
    ensures billFile.Some? ==> r[|r| - 1] == FileEntry(billFile.value)
  {
    TextEntries(a, Form.AllFields) + (if billFile.Some? then [FileEntry(billFile.value)] else [])
  }

  /** Builds the request body the way the submit handler does, one key at a time. */
  method FormDataToSend(a: Form.Answers, billFile: Option<BillFile>) returns (entries: seq<Entry>)
    ensures entries == Submitted(a, billFile)
  {
    entries := [];
    for i := 0 to |Form.AllFields|
      invariant entries == TextEntries(a, Form.AllFields[..i])
    {
      var key := Form.AllFields[i];
      var value := Form.Get(a, key);
      assert Form.AllFields[..i + 1][..i] == Form.AllFields[..i];
      if value != None && value != Some("") {
        entries := entries + [TextEntry(key, value.value)];
      }
    }
    assert Form.AllFields[..|Form.AllFields|] == Form.AllFields;
    if billFile.Some? {
      entries := entries + [FileEntry(billFile.value)];
    }
  }

  /** The kept parts are exactly the truthy answers among `fields`, with their values unchanged. */
  lemma {:induction false} TextEntriesMembers(a: Form.Answers, fields: seq<Form.Field>)
    ensures forall e :: e in TextEntries(a, fields) ==> e.TextEntry?
    ensures forall f, v :: TextEntry(f, v) in TextEntries(a, fields) <==>
      f in fields && Form.Get(a, f) == Some(v) && v != ""
    decreases |fields|
  {
    if fields != [] {
      var init := fields[..|fields| - 1];
      TextEntriesMembers(a, init);
      assert fields == init + [fields[|fields| - 1]];
    }
  }

  /** Fields met in increasing key position. */
  predicate InKeyOrder(fields: seq<Form.Field>) {
    forall i, j :: 0 <= i < j < |fields| ==> Form.FieldIndex(fields[i]) < Form.FieldIndex(fields[j])
  }

  /** The parts kept from `fields` come out in the order of `fields`. */
  lemma {:induction false} TextEntriesOrdered(a: Form.Answers, fields: seq<Form.Field>)
    requires InKeyOrder(fields)
    ensures forall e :: e in TextEntries(a, fields) ==> e.TextEntry?
    ensures forall i, j :: 0 <= i < j < |TextEntries(a, fields)| ==>
      Form.FieldIndex(TextEntries(a, fields)[i].field) < Form.FieldIndex(TextEntries(a, fields)[j].field)
    decreases |fields|
  {
    TextEntriesMembers(a, fields);
    if fields != [] {
      var init := fields[..|fields| - 1];
      var last := fields[|fields| - 1];
      TextEntriesOrdered(a, init);
      TextEntriesMembers(a, init);
      var prev := TextEntries(a, init);
      forall i | 0 <= i < |prev|
        ensures Form.FieldIndex(prev[i].field) < Form.FieldIndex(last)
      {
        assert TextEntry(prev[i].field, prev[i].value) in prev;
        var k :| 0 <= k < |init| && init[k] == prev[i].field;
        assert fields[k] == init[k];
      }
    }
  }

  lemma AllFieldsInKeyOrder()
    ensures InKeyOrder(Form.AllFields)
  {
    Form.AllFieldsDistinct();
  }

  /**
   * The submitted text fields are exactly the answers that are neither `null`
   * nor `''`, each once, in the key order of the form state, with their values
   * unchanged; the bill file is sent, last, exactly when one was chosen.
   */
  lemma SubmittedFields(a: Form.Answers, billFile: Option<BillFile>)
    ensures forall f, v :: TextEntry(f, v) in Submitted(a, billFile) <==> Form.Get(a, f) == Some(v) && v != ""
    ensures forall file :: FileEntry(file) in Submitted(a, billFile) <==> billFile == Some(file)
    ensures billFile.Some? ==> Submitted(a, billFile)[|Submitted(a, billFile)| - 1] == FileEntry(billFile.value)
    ensures forall i, j ::
      (0 <= i < j < |Submitted(a, billFile)|
       && Submitted(a, billFile)[i].TextEntry? && Submitted(a, billFile)[j].TextEntry?) ==>
        Form.FieldIndex(Submitted(a, billFile)[i].field) < Form.FieldIndex(Submitted(a, billFile)[j].field)
  {
    var texts := TextEntries(a, Form.AllFields);
    TextEntriesMembers(a, Form.AllFields);
    AllFieldsInKeyOrder();
    TextEntriesOrdered(a, Form.AllFields);
    forall f
      ensures f in Form.AllFields
    {
      assert Form.AllFields[Form.FieldIndex(f)] == f;
    }
  }
}
