/**
 * The token-expectation checks of `XContentParserUtils`: each takes the
 * parser's current token (and, for one of them, its current field name)
 * and either hands the token back or throws a `ParsingException` with a
 * fixed message and a source location.
 *
 * A thrown exception is a value here (`Outcome.Thrown`), and every call
 * also reports how many times it asked for a location, so that the
 * laziness of `Supplier<XContentLocation>` and `getTokenLocation()` can be
 * stated: no location is computed unless the call fails.
 */
module XContentParserUtils {
  import opened Wrappers
  import opened XContent
  import opened Formatting

  /** The `String.format` templates of the three failures, as written in the source. */
  const TokenMismatchTemplate: string := "Failed to parse object: expecting token of type [%s] but found [%s]"
  const FieldNameMismatchTemplate: string := "Failed to parse object: expecting field with name [%s] but found [%s]"
  const UnknownFieldTemplate: string := "Failed to parse object: unknown field [%s] found"

  /** The two things a `ParsingException` carries. */
  datatype ParsingException = ParsingException(location: Location, message: string)

  /** A call either returns a value or throws. */
  datatype Outcome<+T> = Returned(value: T) | Thrown(exception: ParsingException)

  /** What one call does: its outcome and how many locations it computed. */
  datatype Call<+T> = Call(outcome: Outcome<T>, locationRequests: nat)

  /** The current field name as the name check sees and shows it: null becomes "<null>". */
  function ShownName(currentName: Option<string>): string {
    match currentName
    case Some(n) => n
    case None => "<null>"
  }

  /** The kind-mismatch message, with the slots filled by concatenation. */
  function TokenMismatchMessage(expected: string, found: string): string {
    "Failed to parse object: expecting token of type [" + expected + "] but found [" + found + "]"
  }

  /** The name-mismatch message, with the slots filled by concatenation. */
  function FieldNameMismatchMessage(expected: string, found: string): string {
    "Failed to parse object: expecting field with name [" + expected + "] but found [" + found + "]"
  }

  /** The unknown-field message, with the slot filled by concatenation. */
  function UnknownFieldMessage(field: string): string {
    "Failed to parse object: unknown field [" + field + "] found"
  }

  /** The literal parts of the three templates hold no '%'. */
  lemma LeadFree()
    ensures Free("Failed to parse object: ", '%')
  {
    assert Free("Failed to ", '%') && Free("parse object: ", '%');
    assert "Failed to parse object: " == "Failed to " + "parse object: ";
  }

  lemma TokenMismatchPartsFree()
    ensures Free("Failed to parse object: expecting token of type [", '%')
    ensures Free("] but found [", '%') && Free("]", '%')
  {
    LeadFree();
    assert Free("expecting ", '%') && Free("token of type [", '%');
    assert "Failed to parse object: expecting token of type [" == "Failed to parse object: " + "expecting " + "token of type [";
  }

  lemma FieldNameMismatchPartsFree()
    ensures Free("Failed to parse object: expecting field with name [", '%')
    ensures Free("] but found [", '%') && Free("]", '%')
  {
    LeadFree();
    assert Free("expecting ", '%') && Free("field with ", '%') && Free("name [", '%');
    assert "Failed to parse object: expecting field with name [" ==
      "Failed to parse object: " + "expecting " + "field with " + "name [";
  }

  lemma UnknownFieldPartsFree()
    ensures Free("Failed to parse object: unknown field [", '%')
    ensures Free("] found", '%')
  {
    LeadFree();
    assert Free("unknown field [", '%');
    assert "Failed to parse object: unknown field [" == "Failed to parse object: " + "unknown field [";
  }

  /** Filling the kind-mismatch template gives the concatenated message. */
  lemma TokenMismatchFormat(expected: string, found: string)
    ensures Format(TokenMismatchTemplate, [expected, found]) == Some(TokenMismatchMessage(expected, found))
  {
    var p1, p2, p3 := "Failed to parse object: expecting token of type [", "] but found [", "]";
    assert TokenMismatchTemplate == p1 + "%s" + p2 + "%s" + p3;
    TokenMismatchPartsFree();
    FormatTwoSlots(p1, p2, p3, expected, found);
  }

  /** Filling the name-mismatch template gives the concatenated message. */
  lemma FieldNameMismatchFormat(expected: string, found: string)
    ensures Format(FieldNameMismatchTemplate, [expected, found]) == Some(FieldNameMismatchMessage(expected, found))
  {
    var p1, p2, p3 := "Failed to parse object: expecting field with name [", "] but found [", "]";
    assert FieldNameMismatchTemplate == p1 + "%s" + p2 + "%s" + p3;
    FieldNameMismatchPartsFree();
    FormatTwoSlots(p1, p2, p3, expected, found);
  }

  /** Filling the unknown-field template gives the concatenated message. */
  lemma UnknownFieldFormat(field: string)
    ensures Format(UnknownFieldTemplate, [field]) == Some(UnknownFieldMessage(field))
  {
    var p1, p2 := "Failed to parse object: unknown field [", "] found";
    assert UnknownFieldTemplate == p1 + "%s" + p2;
    UnknownFieldPartsFree();
    FormatOneSlot(p1, p2, field);
  }

  /**
   * `ensureType`: the current token must be the expected kind. On a match
   * the token comes back and the supplier is never asked; otherwise the
   * supplier is asked once and the kind-mismatch message names both kinds.
   */
  function EnsureType(expected: Token, current: Option<Token>, location: () -> Location): (r: Call<Option<Token>>)
    ensures r.outcome.Returned? <==> current == Some(expected)
    ensures r.outcome.Returned? ==> r.outcome.value == current && r.locationRequests == 0
    ensures r.outcome.Thrown? ==>
      && r.locationRequests == 1
      && r.outcome.exception.location == location()
      && Format(TokenMismatchTemplate, [TokenName(expected), Render(current)]) == Some(r.outcome.exception.message)
  {
    if current != Some(expected) then
      TokenMismatchFormat(TokenName(expected), Render(current));
      Call(Thrown(ParsingException(location(), TokenMismatchMessage(TokenName(expected), Render(current)))), 1)
    else
      Call(Returned(current), 0)
  }

  /** `ensureFieldName(token, location)`: the kind check with FIELD_NAME expected. */
  function EnsureFieldName(token: Option<Token>, location: () -> Location): (r: Call<Option<Token>>)
    ensures r.outcome.Returned? <==> token == Some(FieldName)
    ensures r.outcome.Returned? ==> r.outcome.value == token && r.locationRequests == 0
    ensures r.outcome.Thrown? ==>
      && r.locationRequests == 1
      && r.outcome.exception.location == location()
      && Format(TokenMismatchTemplate, ["FIELD_NAME", Render(token)]) == Some(r.outcome.exception.message)
  {
    EnsureType(FieldName, token, location)
  }

  /**
   * `ensureFieldName(parser, token, fieldName)`: first the FIELD_NAME kind
   * check, with `getTokenLocation()` as the supplier; then the current
   * name, shown as "<null>" when absent, must equal `fieldName` exactly.
   */
  function EnsureFieldNameEquals(parser: Parser, token: Option<Token>, fieldName: string): (r: Call<Option<Token>>)
    // a token of the wrong kind fails the kind check, whatever the name
    ensures token != Some(FieldName) ==> r == EnsureFieldName(token, parser.tokenLocation)
    ensures r.outcome.Returned? <==>
      && token == Some(FieldName)
      && (parser.currentName == Some(fieldName) || (parser.currentName == None && fieldName == "<null>"))
    ensures r.outcome.Returned? ==> r.outcome.value == token && r.locationRequests == 0
    ensures r.locationRequests <= 1
    ensures token == Some(FieldName) && r.outcome.Thrown? ==>
      && r.locationRequests == 1
      && r.outcome.exception.location == parser.tokenLocation()
      && Format(FieldNameMismatchTemplate, [fieldName, ShownName(parser.currentName)]) == Some(r.outcome.exception.message)
  {
    var t := EnsureType(FieldName, token, parser.tokenLocation);
    if t.outcome.Thrown? then
      t
    else
      var current := ShownName(parser.currentName);
      if current != fieldName then
        FieldNameMismatchFormat(fieldName, current);
        Call(Thrown(ParsingException(parser.tokenLocation(), FieldNameMismatchMessage(fieldName, current))),
             t.locationRequests + 1)
      else
        Call(Returned(t.outcome.value), t.locationRequests)
  }

  /** How `%s` shows a possibly-null string: null becomes "null". */
  function ShownField(field: Option<string>): string {
    match field
    case Some(f) => f
    case None => "null"
  }

  /**
   * `throwUnknownField`: never returns; throws at exactly the given
   * location. A null field is shown as "null".
   */
  function ThrowUnknownField(field: Option<string>, location: Location): (r: Outcome<()>)
    ensures r.Thrown?
    ensures r.exception.location == location
    ensures Format(UnknownFieldTemplate, [ShownField(field)]) == Some(r.exception.message)
  {
    UnknownFieldFormat(ShownField(field));
    Thrown(ParsingException(location, UnknownFieldMessage(ShownField(field))))
  }

  /** The name-mismatch message for an absent current name, written out. */
  lemma NullNameMessage(fieldName: string)
    ensures FieldNameMismatchMessage(fieldName, "<null>") ==
      "Failed to parse object: expecting field with name [" + fieldName + "] but found [<null>]"
  {
    var p := "Failed to parse object: expecting field with name [";
    assert "] but found [" + "<null>" + "]" == "] but found [<null>]";
    assert FieldNameMismatchMessage(fieldName, "<null>") == p + fieldName + ("] but found [" + "<null>" + "]");
  }

  /**
   * With an absent current name, only the expected name "<null>" passes,
   * and any other expected name fails with "found [<null>]".
   */
  lemma AbsentNameShownAsNull(parser: Parser, fieldName: string)
    requires parser.currentName == None
    ensures EnsureFieldNameEquals(parser, Some(FieldName), fieldName).outcome.Returned? <==> fieldName == "<null>"
    ensures fieldName != "<null>" ==>
      EnsureFieldNameEquals(parser, Some(FieldName), fieldName).outcome.exception.message ==
        "Failed to parse object: expecting field with name [" + fieldName + "] but found [<null>]"
  {
    var r := EnsureFieldNameEquals(parser, Some(FieldName), fieldName);
    assert ShownName(parser.currentName) == "<null>";
    if fieldName != "<null>" {
      FieldNameMismatchFormat(fieldName, "<null>");
      assert r.outcome.exception.message == FieldNameMismatchMessage(fieldName, "<null>");
      NullNameMessage(fieldName);
    }
  }

  /**
   * The kind-mismatch message determines the two names it was built from,
   * provided the expected one holds no closing bracket.
   */
  lemma TokenMismatchMessageInjective(expected1: string, found1: string, expected2: string, found2: string)
    requires Free(expected1, ']') && Free(expected2, ']')
    requires TokenMismatchMessage(expected1, found1) == TokenMismatchMessage(expected2, found2)
    ensures expected1 == expected2 && found1 == found2
  {
    var p, q := "Failed to parse object: expecting token of type [", " but found [";
    var s1, s2 := TokenMismatchMessage(expected1, found1), TokenMismatchMessage(expected2, found2);
    var t1, t2 := q + found1 + "]", q + found2 + "]";
    assert s1 == p + (expected1 + "]" + t1);
    assert s2 == p + (expected2 + "]" + t2);
    assert s1[|p|..] == expected1 + "]" + t1;
    assert s2[|p|..] == expected2 + "]" + t2;
    SplitAt(expected1, t1, expected2, t2, ']');
    assert found1 == t1[|q|..|t1| - 1];
    assert found2 == t2[|q|..|t2| - 1];
  }

  /** The kind-mismatch raised by `EnsureType` names the expected and the found token unambiguously. */
  lemma TokenMismatchIdentifiesTokens(
    expected1: Token, current1: Option<Token>, location1: () -> Location,
    expected2: Token, current2: Option<Token>, location2: () -> Location)
    requires EnsureType(expected1, current1, location1).outcome.Thrown?
    requires EnsureType(expected2, current2, location2).outcome.Thrown?
    requires EnsureType(expected1, current1, location1).outcome.exception.message ==
             EnsureType(expected2, current2, location2).outcome.exception.message
    ensures expected1 == expected2 && current1 == current2
  {
    var e1, c1 := TokenName(expected1), Render(current1);
    var e2, c2 := TokenName(expected2), Render(current2);
    TokenMismatchFormat(e1, c1);
    TokenMismatchFormat(e2, c2);
    RenderFree(Some(expected1));
    RenderFree(Some(expected2));
    TokenMismatchMessageInjective(e1, c1, e2, c2);
    RenderInjective(Some(expected1), Some(expected2));
    RenderInjective(current1, current2);
  }

  /**
   * The unknown-field message determines the field as shown, and so the
   * field itself when both fields are present.
   */
  lemma UnknownFieldIdentifiesField(field1: Option<string>, location1: Location, field2: Option<string>, location2: Location)
    requires ThrowUnknownField(field1, location1).exception.message ==
             ThrowUnknownField(field2, location2).exception.message
    ensures ShownField(field1) == ShownField(field2)
    ensures field1.Some? && field2.Some? ==> field1 == field2
  {
    var f1, f2 := ShownField(field1), ShownField(field2);
    UnknownFieldFormat(f1);
    UnknownFieldFormat(f2);
    var p, q := "Failed to parse object: unknown field [", "] found";
    var s1, s2 := UnknownFieldMessage(f1), UnknownFieldMessage(f2);
    assert s1 == p + f1 + q && s2 == p + f2 + q;
    assert |f1| == |f2|;
    assert f1 == s1[|p|..|p| + |f1|];
    assert f2 == s2[|p|..|p| + |f2|];
  }

  /** A null field and the field "null" give the same unknown-field report. */
  lemma UnknownNullFieldLooksLikeNullString(location: Location)
    ensures ThrowUnknownField(None, location) == ThrowUnknownField(Some("null"), location)
  {
    assert ShownField(None) == ShownField(Some("null"));
  }

  /**
   * The two ways `EnsureFieldNameEquals` can fail are told apart by their
   * message, and neither reads like an unknown-field report.
   */
  lemma FailuresDistinguishable(expected: string, found: string, name: string, actual: string, field: string)
    ensures TokenMismatchMessage(expected, found) != FieldNameMismatchMessage(name, actual)
    ensures TokenMismatchMessage(expected, found) != UnknownFieldMessage(field)
    ensures FieldNameMismatchMessage(name, actual) != UnknownFieldMessage(field)
  {
    var t, f, u := TokenMismatchMessage(expected, found), FieldNameMismatchMessage(name, actual), UnknownFieldMessage(field);
    // the messages first differ right after "Failed to parse object: "
    // (24 characters) and after "Failed to parse object: expecting " (34)
    var lead, verb := "Failed to parse object: ", "Failed to parse object: expecting ";
    assert |lead| == 24 && |verb| == 34;
    assert t[|verb|] == 't' && f[|verb|] == 'f';
    assert t[|lead|] == 'e' && u[|lead|] == 'u';
  }
}
