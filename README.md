# XContentParserUtils token checks, modelled in Dafny

`XContentParserUtils` is a set of static helpers that sit on top of a
streaming structured-content parser (`XContentParser`). Each helper looks at
the parser's current token, and for one of them also at the parser's current
field name. It either hands the token back or throws a `ParsingException`.
That exception carries a message built from a fixed `String.format` template
and a source location (`XContentLocation`).

The model has four modules:

- `Wrappers`: `Option`, used for the Java references that may be null.
- `XContent`: the `Token` kinds and how a token is shown in a message
  (`TokenName` gives the enum constant's name; `Render` also covers the null
  token at the end of the input, shown as `null`). It also has `Location` and
  `Parser`, the part of a parser the helpers read: `currentName()` and a
  deferred `getTokenLocation()`.
- `Formatting`: `String.format` restricted to `%s`, and lemmas that show how
  templates with literal text and `%s` slots are filled in.
- `XContentParserUtils`: the four helpers and the properties proved about
  them.

A thrown exception is a value, `Outcome.Thrown(ParsingException(location,
message))`. Each call returns a `Call`, which holds the outcome and also
`locationRequests`, the number of times the call computed a location. This
makes the laziness of `Supplier<XContentLocation>` and `parser::getTokenLocation`
something a contract can state. A location supplier is a total function
value `() -> Location`.

Each message is built by concatenation. Each contract states the message as
the source's template filled in by `Format`. The lemmas `TokenMismatchFormat`,
`FieldNameMismatchFormat` and `UnknownFieldFormat` connect the two.

All members are pure functions with no hidden state. Calling one twice with
the same inputs therefore gives the same result.

The model follows the code:

- Every message starts with `Failed to parse object: `
  (XContentParserUtils.java lines 60, 70 and 82).
- Nothing checks the expected field name, so it may be any string, the empty
  one included (lines 58-59).

## Model

| member | source | states |
|---|---|---|
| XContentParserUtils.EnsureType | core/src/main/java/org/elasticsearch/common/xcontent/XContentParserUtils.java:80-86 | returns the current token unchanged exactly when it equals the expected kind, and then asks for no location; otherwise asks the supplier once and throws at that location, with the kind-mismatch template filled with the expected and the found token (null shown as `null`) |
| XContentParserUtils.EnsureFieldName | core/src/main/java/org/elasticsearch/common/xcontent/XContentParserUtils.java:44-46 | succeeds exactly when the token is FIELD_NAME and returns it with no location computed; otherwise throws the kind-mismatch message naming `FIELD_NAME` as expected, at the supplier's location, computed once |
| XContentParserUtils.EnsureFieldNameEquals | core/src/main/java/org/elasticsearch/common/xcontent/XContentParserUtils.java:55-64 | a token other than FIELD_NAME gives exactly the kind-check failure, before any name is compared; a FIELD_NAME token is returned exactly when the current name equals the expected name, or the name is absent and the expected name is `<null>`; otherwise it throws the name-mismatch template at `getTokenLocation()`; at most one location is ever computed, none on success |
| XContentParserUtils.ThrowUnknownField | core/src/main/java/org/elasticsearch/common/xcontent/XContentParserUtils.java:69-72 | never returns normally; always throws at exactly the given location, with the unknown-field template filled with the field, a null field shown as `null` |
| XContentParserUtils.AbsentNameShownAsNull | core/src/main/java/org/elasticsearch/common/xcontent/XContentParserUtils.java:58-61 | with an absent current name and a FIELD_NAME token, only the expected name `<null>` passes; any other expected name fails with a message ending in `but found [<null>]` |
| XContentParserUtils.TokenMismatchFormat | core/src/main/java/org/elasticsearch/common/xcontent/XContentParserUtils.java:82-83 | filling the kind-mismatch template with two names gives the concatenated message |
| XContentParserUtils.FieldNameMismatchFormat | core/src/main/java/org/elasticsearch/common/xcontent/XContentParserUtils.java:60-61 | filling the name-mismatch template with two names gives the concatenated message |
| XContentParserUtils.UnknownFieldFormat | core/src/main/java/org/elasticsearch/common/xcontent/XContentParserUtils.java:70-71 | filling the unknown-field template with a field gives the concatenated message |
| XContentParserUtils.TokenMismatchMessageInjective | core/src/main/java/org/elasticsearch/common/xcontent/XContentParserUtils.java:82-83 | two kind-mismatch messages are equal only when they were built from the same names, provided the expected names hold no `]` |
| XContentParserUtils.TokenMismatchIdentifiesTokens | core/src/main/java/org/elasticsearch/common/xcontent/XContentParserUtils.java:81-83 | the message thrown by a failed kind check determines both the expected kind and the found token |
| XContentParserUtils.UnknownFieldIdentifiesField | core/src/main/java/org/elasticsearch/common/xcontent/XContentParserUtils.java:70-71 | the unknown-field message determines the field as shown, and the field itself when both fields are non-null |
| XContentParserUtils.UnknownNullFieldLooksLikeNullString | core/src/main/java/org/elasticsearch/common/xcontent/XContentParserUtils.java:69-71 | a null field and the string `"null"` give the same unknown-field exception, so the message cannot tell them apart |
| XContentParserUtils.FailuresDistinguishable | core/src/main/java/org/elasticsearch/common/xcontent/XContentParserUtils.java:56-61 | a kind-mismatch message never equals a name-mismatch or an unknown-field message, so the two failures of the field-name check can be told apart |

## Left out

- The parser itself: how `XContentParser` produces tokens, `currentName()` and
  `getTokenLocation()`. These are inputs here. `XContentParser.java` and
  `XContentLocation.java` are not part of this model. The `Token` constants and
  the two location fields follow those classes' public names.
- `ParsingException` internals: only its location and message are modelled.
- `IOException` in the signatures belongs to the parser interface. Only the
  parser calls can throw it; `ensureFieldName(parser, …)` passes on one thrown
  by `parser.currentName()` or `getTokenLocation()`, which the model does not.
- `String.format` is modelled only for the `%s` conversion of strings. The
  locale (`Locale.ROOT`) does not change `%s` output.
- A null expected field name in `ensureFieldName(parser, token, fieldName)` is
  not modelled. The expected name is always a string.
- The source reads `parser.currentName()` twice when the name is non-null and
  once when it is null (line 58). The model reads it once, so it assumes that
  repeated reads return the same value.
- A location supplier is a pure function. `locationRequests` counts how many
  times it is called. Side effects of computing a location are not modelled.
