/**
 The three formatters (`formatJSON`, `formatXML`, `formatHTML`).

 Each one hands the body to a parse-then-serialise pair of library routines
 (`json.Unmarshal` + `json.MarshalIndent`, `xml.Unmarshal` + `xml.MarshalIndent`,
 `html.Parse` + `html.Render`). Those routines are not modelled: each pair is an
 opaque function that reports either the serialised bytes or which of its two
 stages failed and why. What is modelled is what the wrappers add: the error
 message each failure is wrapped in, and the newline appended to XML output.
 */
module Formatters {

  newtype byte = x: int | 0 <= x < 256

  type Bytes = seq<byte>

  const Newline: byte := 10

  /** The document kinds that have a formatter. */
  datatype Kind = Json | Xml | Html

  /** What a library parse-then-serialise pair yields on one input. */
  datatype LibOutcome =
    | Serialised(output: Bytes)
    | ParseFailed(detail: string)
    | SerialiseFailed(detail: string)

  /** The library pair used for each kind of document. */
  datatype Libraries = Libraries(
    json: Bytes -> LibOutcome,
    xml: Bytes -> LibOutcome,
    html: Bytes -> LibOutcome
  )

  /** A formatter's result: the formatted bytes, or the error it returns. */
  datatype FormatResult = Formatted(data: Bytes) | FormatFailed(message: string)

  function Library(libs: Libraries, k: Kind): Bytes -> LibOutcome {
    match k
    case Json => libs.json
    case Xml => libs.xml
    case Html => libs.html
  }

  /** The format's name as it appears in the wrapped error messages. */
  function Name(k: Kind): string {
    match k
    case Json => "JSON"
    case Xml => "XML"
    case Html => "HTML"
  }

  /** The verb naming the serialising stage in the wrapped error messages. */
  function SerialiseVerb(k: Kind): string {
    match k
    case Json => "format"
    case Xml => "format"
    case Html => "render"
  }

  /** Run the formatter of kind `k` on `data`. */
  function Format(k: Kind, libs: Libraries, data: Bytes): (r: FormatResult)
    ensures r.Formatted? <==> Library(libs, k)(data).Serialised?
    ensures Library(libs, k)(data).ParseFailed? ==>
      r.message == "failed to parse " + Name(k) + ": " + Library(libs, k)(data).detail
    ensures Library(libs, k)(data).SerialiseFailed? ==>
      r.message == "failed to " + SerialiseVerb(k) + " " + Name(k) + ": " + Library(libs, k)(data).detail
  {
    match Library(libs, k)(data)
    case ParseFailed(detail) =>
      FormatFailed("failed to parse " + Name(k) + ": " + detail)
    case SerialiseFailed(detail) =>
      FormatFailed("failed to " + SerialiseVerb(k) + " " + Name(k) + ": " + detail)
    case Serialised(output) =>
      Formatted(if k == Xml then output + [Newline] else output)
  }

  /** JSON and HTML output is the library's serialisation unchanged. */
  lemma FormattedIsSerialised(k: Kind, libs: Libraries, data: Bytes)
    requires k != Xml && Library(libs, k)(data).Serialised?
    ensures Format(k, libs, data) == Formatted(Library(libs, k)(data).output)
  {
  }

  /** Successful XML output is the marshalled bytes followed by exactly one
      newline, so it always ends with a newline and is one byte longer. */
  lemma XmlEndsWithNewline(libs: Libraries, data: Bytes)
    requires libs.xml(data).Serialised?
    ensures Format(Xml, libs, data).Formatted?
    ensures var out := Format(Xml, libs, data).data;
      && |out| == |libs.xml(data).output| + 1
      && out[|out| - 1] == Newline
      && out[..|out| - 1] == libs.xml(data).output
  {
  }

  /** A formatter depends on nothing but its own library's answer for the input. */
  lemma FormatUsesOnlyItsLibrary(k: Kind, libs: Libraries, libs': Libraries, data: Bytes)
    requires Library(libs, k)(data) == Library(libs', k)(data)
    ensures Format(k, libs, data) == Format(k, libs', data)
  {
  }

  /** Every failure message names the stage that failed and the format, and ends
      with the library's own explanation. */
  lemma FailureMessageShape(k: Kind, libs: Libraries, data: Bytes)
    requires !Library(libs, k)(data).Serialised?
    ensures var msg := Format(k, libs, data).message;
      var detail := Library(libs, k)(data).detail;
      && |msg| >= |"failed to "| + |detail|
      && msg[..|"failed to "|] == "failed to "
      && msg[|msg| - |detail|..] == detail
  {
  }
}
