/**
 The /format request handler (`formatHandler`): it lowercases the `type`
 query parameter, rejects a missing one, reads the body, dispatches to the
 formatter named by the type, and turns the formatter's result into a
 response. Every rejection and every formatter failure asks for one error to
 be recorded; the actual metrics update is applied by the service step.
 */
module Handler {
  import opened Formatters

  datatype Option<T> = None | Some(value: T)

  const StatusOK: int := 200
  const StatusBadRequest: int := 400
  const StatusInternalServerError: int := 500

  /** The content type of every response the handler writes. */
  const PlainText: string := "text/plain; charset=utf-8"

  const MissingTypeMessage: string := "Missing 'type' parameter. Specify 'json', 'xml', or 'html'."
  const ReadFailureMessage: string := "Failed to read request body"
  const InvalidTypeMessage: string := "Invalid 'type' parameter. Supported types are 'json', 'xml', and 'html'."
  const FailurePrefix: string := "Formatting failed: "

  /** A response body: an error message or the formatted document. */
  datatype ResponseBody = Text(text: string) | Payload(data: Bytes)

  datatype Response = Response(status: int, contentType: string, body: ResponseBody)

  /** Go's `http.Error`: plain text, the message followed by a newline. */
  function ErrorResponse(message: string, status: int): (r: Response)
    ensures r.status == status && r.contentType == PlainText
    ensures r.body.Text? && |r.body.text| == |message| + 1
    ensures r.body.text[..|message|] == message && r.body.text[|message|] == '\n'
  {
    Response(status, PlainText, Text(message + "\n"))
  }

  predicate IsUpper(c: char) {
    'A' <= c <= 'Z'
  }

  predicate IsLower(c: char) {
    'a' <= c <= 'z'
  }

  function LowerChar(c: char): char {
    if IsUpper(c) then (c as int - 'A' as int + 'a' as int) as char else c
  }

  function UpperChar(c: char): char {
    if IsLower(c) then (c as int - 'a' as int + 'A' as int) as char else c
  }

  /** `strings.ToLower`, on the ASCII letters: every upper-case letter replaced
      by its lower-case partner, everything else kept in place. */
  function Lower(s: string): (r: string)
    ensures |r| == |s|
    ensures forall i :: 0 <= i < |s| ==> r[i] == LowerChar(s[i])
    ensures forall i :: 0 <= i < |s| ==> !IsUpper(r[i])
  {
    if s == [] then [] else [LowerChar(s[0])] + Lower(s[1..])
  }

  /** `t` spells the lower-case word `w` up to the case of its letters. */
  predicate IsCaseVariant(t: string, w: string) {
    |t| == |w| && forall i :: 0 <= i < |t| ==> t[i] == w[i] || t[i] == UpperChar(w[i])
  }

  /** The formatter selected by an already lower-cased, non-empty type. */
  function Dispatch(t: string): Option<Kind> {
    if t == "json" then Some(Json)
    else if t == "xml" then Some(Xml)
    else if t == "html" then Some(Html)
    else None
  }

  /** What the handler did: the response, whether it asked for one error to be
      recorded, and which formatter (if any) it ran. */
  datatype HandlerResult = HandlerResult(response: Response, errorRecorded: bool, formatterRun: Option<Kind>)

  /** `formatHandler` for a request whose `type` parameter is `typeParam` (the
      empty string when absent), whose buffered body is `body`, and where
      `readFails` says whether re-reading that body failed. */
  function Handle(typeParam: string, body: Bytes, readFails: bool, libs: Libraries): (h: HandlerResult)
    // exactly the non-200 outcomes count as an error
    ensures h.errorRecorded <==> h.response.status != StatusOK
    ensures h.response.contentType == PlainText
    // 400 is the answer to a missing or unknown type or an unreadable body,
    // and only then does no formatter run
    ensures h.response.status == StatusBadRequest <==>
      (Lower(typeParam) == "" || readFails || Dispatch(Lower(typeParam)).None?)
    ensures h.formatterRun.None? <==> h.response.status == StatusBadRequest
    ensures Lower(typeParam) == "" ==> h.response == ErrorResponse(MissingTypeMessage, StatusBadRequest)
    ensures Lower(typeParam) != "" && readFails ==>
      h.response == ErrorResponse(ReadFailureMessage, StatusBadRequest)
    ensures Lower(typeParam) != "" && !readFails && Dispatch(Lower(typeParam)).None? ==>
      h.response == ErrorResponse(InvalidTypeMessage, StatusBadRequest)
    // the formatter that runs is the one the lower-cased type names
    ensures h.formatterRun.Some? ==>
      !readFails && Dispatch(Lower(typeParam)) == h.formatterRun
    ensures h.formatterRun.Some? ==>
      var result := Format(h.formatterRun.value, libs, body);
      && (result.Formatted? ==> h.response == Response(StatusOK, PlainText, Payload(result.data)))
      && (result.FormatFailed? ==>
            h.response == ErrorResponse(FailurePrefix + result.message, StatusInternalServerError))
  {
    var t := Lower(typeParam);
    if t == "" then
      HandlerResult(ErrorResponse(MissingTypeMessage, StatusBadRequest), true, None)
    else if readFails then
      HandlerResult(ErrorResponse(ReadFailureMessage, StatusBadRequest), true, None)
    else
      match Dispatch(t)
      case None =>
        HandlerResult(ErrorResponse(InvalidTypeMessage, StatusBadRequest), true, None)
      case Some(k) =>
        match Format(k, libs, body)
        case FormatFailed(message) =>
          HandlerResult(ErrorResponse(FailurePrefix + message, StatusInternalServerError), true, Some(k))
        case Formatted(data) =>
          HandlerResult(Response(StatusOK, PlainText, Payload(data)), false, Some(k))
  }

  /** Lower-casing a lower-case word's spelling gives the word back exactly
      when the spelling differs from it only in the case of its letters. */
  lemma LowerIsWordIffCaseVariant(t: string, w: string)
    requires forall i :: 0 <= i < |w| ==> IsLower(w[i])
    ensures Lower(t) == w <==> IsCaseVariant(t, w)
  {
  }

  /** Which spellings of the type select each formatter. */
  lemma SupportedSpellings(t: string)
    ensures Dispatch(Lower(t)) == Some(Json) <==> IsCaseVariant(t, "json")
    ensures Dispatch(Lower(t)) == Some(Xml) <==> IsCaseVariant(t, "xml")
    ensures Dispatch(Lower(t)) == Some(Html) <==> IsCaseVariant(t, "html")
  {
    LowerIsWordIffCaseVariant(t, "json");
    LowerIsWordIffCaseVariant(t, "xml");
    LowerIsWordIffCaseVariant(t, "html");
  }

  /** Lower-casing is idempotent, so a lower-cased type is its own canonical form. */
  lemma LowerIdempotent(s: string)
    ensures Lower(Lower(s)) == Lower(s)
  {
  }

  /** Spellings that lower-case alike are handled alike. */
  lemma CaseInsensitive(a: string, b: string, body: Bytes, readFails: bool, libs: Libraries)
    requires Lower(a) == Lower(b)
    ensures Handle(a, body, readFails, libs) == Handle(b, body, readFails, libs)
  {
  }

  /** A 400 answer does not depend on the formatters at all: none of them ran. */
  lemma RejectionIgnoresFormatters(t: string, body: Bytes, readFails: bool, libs: Libraries, libs': Libraries)
    requires Handle(t, body, readFails, libs).response.status == StatusBadRequest
    ensures Handle(t, body, readFails, libs') == Handle(t, body, readFails, libs)
  {
  }
}
