/**
 * The collaborators the validator reads from: the token kinds of the
 * streaming parser, the source location it reports, and the two things the
 * validator asks of a parser (its current field name and, on demand, the
 * location of its current token). How a parser produces them is not modelled.
 */
module XContent {
  import opened Wrappers
  import opened Formatting

  /** The closed set of token kinds of `XContentParser.Token`. */
  datatype Token =
    | StartObject | EndObject | StartArray | EndArray | FieldName
    | ValueString | ValueNumber | ValueBoolean | ValueEmbeddedObject | ValueNull

  /** The display name of a token kind: the Java enum constant's name. */
  function TokenName(t: Token): string {
    match t
    case StartObject => "START_OBJECT"
    case EndObject => "END_OBJECT"
    case StartArray => "START_ARRAY"
    case EndArray => "END_ARRAY"
    case FieldName => "FIELD_NAME"
    case ValueString => "VALUE_STRING"
    case ValueNumber => "VALUE_NUMBER"
    case ValueBoolean => "VALUE_BOOLEAN"
    case ValueEmbeddedObject => "VALUE_EMBEDDED_OBJECT"
    case ValueNull => "VALUE_NULL"
  }

  /**
   * How a `%s` slot shows a possibly-null token: the constant's name, or
   * "null" for the null token a parser yields at the end of its input.
   */
  function Render(t: Option<Token>): string {
    match t
    case None => "null"
    case Some(k) => TokenName(k)
  }

  /** No rendered token contains a closing bracket or a percent sign. */
  lemma RenderFree(t: Option<Token>)
    ensures Free(Render(t), ']') && Free(Render(t), '%')
  {
    match t
    case None =>
    case Some(k) =>
      match k
      case StartObject =>
      case EndObject =>
      case StartArray =>
      case EndArray =>
      case FieldName =>
      case ValueString =>
      case ValueNumber =>
      case ValueBoolean =>
      case ValueEmbeddedObject =>
      case ValueNull =>
  }

  /** Distinct tokens (null included) render to distinct names. */
  lemma RenderInjective(t: Option<Token>, u: Option<Token>)
    ensures Render(t) == Render(u) <==> t == u
  {
  }

  /** `XContentLocation`: where in the input a token was found. */
  datatype Location = Location(lineNumber: int, columnNumber: int)

  /**
   * What the validator reads from an `XContentParser`: `currentName()`
   * (None for null) and `getTokenLocation()`, a computation that is only
   * performed when it is asked for.
   */
  datatype Parser = Parser(currentName: Option<string>, tokenLocation: () -> Location)
}
