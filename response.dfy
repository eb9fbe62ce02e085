/**
 * The response builder over net/http's response writer. The writer's
 * behaviour is given by pure transitions on its state (header map, whether
 * the final header was written, the status, and what went out on the
 * wire); the Writer and Response classes are proved to follow them.
 */
module Response {
  import opened Wrappers
  import opened Http

  const ContentTypeHeader := "Content-Type"
  const ContentLengthHeader := "Content-Length"
  const NoSniffHeader := "X-Content-Type-Options"
  const JsonContentType := "application/json"
  const TextContentType := "text/plain; charset=utf-8"

  const StatusOK := 200
  const StatusInternalServerError := 500

  /** The error net/http's Write returns when the status does not allow a body. */
  const ErrBodyNotAllowed := "http: request method or response status code does not allow body"

  /**
   * What goes out on the wire: an informational header block, the final
   * status line with the header as it was at that moment, or body bytes.
   */
  datatype Event = Informational(code: int, header: Header) | Final(code: int, header: Header) | Body(data: string)

  datatype WriterState = WriterState(header: Header, wroteHeader: bool, status: int, events: seq<Event>)

  const Initial := WriterState(map[], false, 0, [])

  /** WriteHeader panics outside 100..999. */
  predicate ValidCode(code: int) {
    100 <= code <= 999
  }

  /** 1xx codes other than 101 are sent at once and leave the final header still to come. */
  predicate IsInformational(code: int) {
    100 <= code <= 199 && code != 101
  }

  predicate BodyAllowed(status: int) {
    !(100 <= status <= 199) && status != 204 && status != 304
  }

  // ---- The writer's transitions --------------------------------------

  /** Header().Set. */
  function SetOn(s: WriterState, name: string, value: string): WriterState {
    s.(header := s.header[CanonicalHeaderKey(name) := value])
  }

  /** Header().Del. */
  function DelOn(s: WriterState, name: string): WriterState {
    s.(header := s.header - {CanonicalHeaderKey(name)})
  }

  /** WriteHeader: only the first final status counts; it sends a snapshot of the header. */
  function WriteHeaderOn(s: WriterState, code: int): WriterState
    requires ValidCode(code)
  {
    if s.wroteHeader then s
    else if IsInformational(code) then s.(events := s.events + [Informational(code, s.header)])
    else s.(wroteHeader := true, status := code, events := s.events + [Final(code, s.header)])
  }

  /** The number of bytes of the UTF-8 encoding of one character. */
  function Utf8Width(c: char): nat {
    if c as int < 0x80 then 1 else if c as int < 0x800 then 2 else if c as int < 0x1_0000 then 3 else 4
  }

  /** The length of []byte(s): the UTF-8 byte count, not the character count. */
  function Utf8Length(s: string): (n: nat)
    ensures n >= |s|
    ensures n <= 4 * |s|
    ensures n == 0 <==> s == []
    decreases |s|
  {
    if s == [] then 0 else Utf8Width(s[0]) + Utf8Length(s[1..])
  }

  /** A text of ASCII characters has one byte per character. */
  lemma {:induction false} Utf8LengthOfAscii(s: string)
    requires forall i | 0 <= i < |s| :: s[i] as int < 0x80
    ensures Utf8Length(s) == |s|
    decreases |s|
  {
    if s != [] {
      Utf8LengthOfAscii(s[1..]);
    }
  }

  /**
   * Write: an implicit WriteHeader(200) first; an empty write then succeeds
   * with nothing sent, and any other write is refused when the status
   * allows no body. The count is of bytes.
   */
  function WriteOn(s: WriterState, data: string): (WriterState, int, Option<string>) {
    var s1 := if s.wroteHeader then s else WriteHeaderOn(s, StatusOK);
    if data == [] then (s1, 0, None)
    else if !BodyAllowed(s1.status) then (s1, 0, Some(ErrBodyNotAllowed))
    else (s1.(events := s1.events + [Body(data)]), Utf8Length(data), None)
  }

  /** http.Error: plain-text headers, WriteHeader(code), then the message and a newline. */
  function ErrorOn(s: WriterState, error: string, code: int): WriterState
    requires ValidCode(code)
  {
    var h := SetOn(SetOn(DelOn(s, ContentLengthHeader), ContentTypeHeader, TextContentType), NoSniffHeader, "nosniff");
    WriteOn(WriteHeaderOn(h, code), error + "\n").0
  }

  // ---- The step-by-step protocol -------------------------------------

  predicate NoFinal(ev: seq<Event>) {
    forall i | 0 <= i < |ev| :: ev[i].Informational?
  }

  /** The final header is event k: only informational blocks before it, only body after it. */
  predicate HeaderAt(s: WriterState, k: int) {
    && 0 <= k < |s.events|
    && NoFinal(s.events[..k])
    && s.events[k].Final? && s.events[k].code == s.status
    && ValidCode(s.status) && !IsInformational(s.status)
    && (forall j | k < j < |s.events| :: s.events[j].Body?)
    && (k + 1 < |s.events| ==> BodyAllowed(s.status))
  }

  /** The status is written once, before any body, and a body only follows a status that allows one. */
  ghost predicate Wellformed(s: WriterState) {
    if s.wroteHeader then exists k :: HeaderAt(s, k) else NoFinal(s.events)
  }

  lemma InitialWellformed()
    ensures Wellformed(Initial)
  {
  }

  lemma HeaderEditsPreserve(s: WriterState, name: string, value: string)
    requires Wellformed(s)
    ensures Wellformed(SetOn(s, name, value)) && Wellformed(DelOn(s, name))
  {
    if s.wroteHeader {
      var k :| HeaderAt(s, k);
      assert HeaderAt(SetOn(s, name, value), k);
      assert HeaderAt(DelOn(s, name), k);
    }
  }

  lemma WriteHeaderPreserves(s: WriterState, code: int)
    requires ValidCode(code) && Wellformed(s)
    ensures Wellformed(WriteHeaderOn(s, code))
  {
    var r := WriteHeaderOn(s, code);
    if !s.wroteHeader {
      if IsInformational(code) {
        assert NoFinal(r.events) by {
          forall i | 0 <= i < |r.events| ensures r.events[i].Informational? {
            if i < |s.events| { assert r.events[i] == s.events[i]; }
          }
        }
      } else {
        assert r.events[..|s.events|] == s.events;
        assert HeaderAt(r, |s.events|);
      }
    }
  }

  lemma WritePreserves(s: WriterState, data: string)
    requires Wellformed(s)
    ensures Wellformed(WriteOn(s, data).0)
    ensures WriteOn(s, data).0.wroteHeader
  {
    var s1 := if s.wroteHeader then s else WriteHeaderOn(s, StatusOK);
    WriteHeaderPreserves(s, StatusOK);
    assert Wellformed(s1) && s1.wroteHeader;
    var k :| HeaderAt(s1, k);
    if BodyAllowed(s1.status) {
      var s2 := s1.(events := s1.events + [Body(data)]);
      assert s2.events[..k] == s1.events[..k];
      assert HeaderAt(s2, k);
    }
  }

  lemma ErrorPreserves(s: WriterState, error: string, code: int)
    requires ValidCode(code) && Wellformed(s)
    ensures Wellformed(ErrorOn(s, error, code))
  {
    var d := DelOn(s, ContentLengthHeader);
    HeaderEditsPreserve(s, ContentLengthHeader, "");
    var t := SetOn(d, ContentTypeHeader, TextContentType);
    HeaderEditsPreserve(d, ContentTypeHeader, TextContentType);
    var h := SetOn(t, NoSniffHeader, "nosniff");
    HeaderEditsPreserve(t, NoSniffHeader, "nosniff");
    WriteHeaderPreserves(h, code);
    WritePreserves(WriteHeaderOn(h, code), error + "\n");
  }

  // ---- The response builder ------------------------------------------

  /** Json: content type, then the status, then the encoding and a newline; http.Error(500) on failure. */
  function JsonOn(s: WriterState, status: int, enc: Result<string, string>): WriterState
    requires ValidCode(status)
  {
    var s2 := WriteHeaderOn(SetOn(s, ContentTypeHeader, JsonContentType), status);
    match enc
    case Err(e) => ErrorOn(s2, e, StatusInternalServerError)
    case Ok(t) =>
      var w := WriteOn(s2, t + "\n");
      if w.2.Some? then ErrorOn(w.0, w.2.value, StatusInternalServerError) else w.0
  }

  /** Text: content type, then the status, then the text; the write's result is returned. */
  function TextOn(s: WriterState, status: int, text: string): (WriterState, int, Option<string>)
    requires ValidCode(status)
  {
    WriteOn(WriteHeaderOn(SetOn(s, ContentTypeHeader, TextContentType), status), text)
  }

  lemma JsonPreserves(s: WriterState, status: int, enc: Result<string, string>)
    requires ValidCode(status) && Wellformed(s)
    ensures Wellformed(JsonOn(s, status, enc))
  {
    var s1 := SetOn(s, ContentTypeHeader, JsonContentType);
    HeaderEditsPreserve(s, ContentTypeHeader, JsonContentType);
    var s2 := WriteHeaderOn(s1, status);
    WriteHeaderPreserves(s1, status);
    match enc
    case Err(e) => ErrorPreserves(s2, e, StatusInternalServerError);
    case Ok(t) =>
      WritePreserves(s2, t + "\n");
      var w := WriteOn(s2, t + "\n");
      if w.2.Some? {
        ErrorPreserves(w.0, w.2.value, StatusInternalServerError);
      }
  }

  lemma TextPreserves(s: WriterState, status: int, text: string)
    requires ValidCode(status) && Wellformed(s)
    ensures Wellformed(TextOn(s, status, text).0)
  {
    var s1 := SetOn(s, ContentTypeHeader, TextContentType);
    HeaderEditsPreserve(s, ContentTypeHeader, TextContentType);
    WriteHeaderPreserves(s1, status);
    WritePreserves(WriteHeaderOn(s1, status), text);
  }

  /**
   * On a fresh response with a final status that allows a body, Json sends
   * the status with Content-Type application/json already in the header,
   * then the encoding followed by a newline.
   */
  lemma JsonSends(s: WriterState, status: int, t: string)
    requires !s.wroteHeader && 200 <= status <= 999 && BodyAllowed(status)
    ensures JsonOn(s, status, Ok(t)).events ==
              s.events + [Final(status, s.header[CanonicalHeaderKey(ContentTypeHeader) := JsonContentType]), Body(t + "\n")]
    ensures JsonOn(s, status, Ok(t)).status == status
  {
  }

  /**
   * Text sends the status with the plain-text content type in the header,
   * then the text, and returns the text's byte count without error. An
   * empty text sends only the status.
   */
  lemma TextSends(s: WriterState, status: int, text: string)
    requires !s.wroteHeader && 200 <= status <= 999 && BodyAllowed(status)
    ensures var h := Final(status, s.header[CanonicalHeaderKey(ContentTypeHeader) := TextContentType]);
            TextOn(s, status, text).0.events == s.events + [h] + (if text == "" then [] else [Body(text)])
    ensures TextOn(s, status, text).1 == Utf8Length(text) && TextOn(s, status, text).2 == None
  {
  }

  /**
   * With a status that allows no body (204, 304), Text sends only the
   * status. A non-empty text is refused; an empty one, the usual No Content
   * reply, succeeds.
   */
  lemma TextWithoutBody(s: WriterState, status: int, text: string)
    requires !s.wroteHeader && 200 <= status <= 999 && !BodyAllowed(status)
    ensures TextOn(s, status, text).0.events ==
              s.events + [Final(status, s.header[CanonicalHeaderKey(ContentTypeHeader) := TextContentType])]
    ensures TextOn(s, status, text).1 == 0
    ensures TextOn(s, status, text).2 == (if text == "" then None else Some(ErrBodyNotAllowed))
  {
  }

  /**
   * As written, an encoding failure cannot turn into a 500: the status
   * went out before encoding, so http.Error's WriteHeader is superfluous
   * and its header changes come too late. The client gets the original
   * status, Content-Type application/json, and the error text as body.
   */
  lemma JsonEncodeFailureKeepsStatus(s: WriterState, status: int, e: string)
    requires !s.wroteHeader && 200 <= status <= 999 && BodyAllowed(status)
    ensures JsonOn(s, status, Err(e)).events ==
              s.events + [Final(status, s.header[CanonicalHeaderKey(ContentTypeHeader) := JsonContentType]), Body(e + "\n")]
    ensures status != StatusInternalServerError ==> JsonOn(s, status, Err(e)).status != StatusInternalServerError
  {
  }

  /** Json with the encoding done before anything is written, as the error path intends. */
  function JsonEncodeFirstOn(s: WriterState, status: int, enc: Result<string, string>): WriterState
    requires ValidCode(status)
  {
    match enc
    case Err(e) => ErrorOn(s, e, StatusInternalServerError)
    case Ok(t) =>
      var w := WriteOn(WriteHeaderOn(SetOn(s, ContentTypeHeader, JsonContentType), status), t + "\n");
      if w.2.Some? then ErrorOn(w.0, w.2.value, StatusInternalServerError) else w.0
  }

  /** Encoding first, a failure on a fresh response is answered with a plain-text 500. */
  lemma JsonEncodeFirstFailure(s: WriterState, status: int, e: string)
    requires !s.wroteHeader && ValidCode(status)
    ensures var r := JsonEncodeFirstOn(s, status, Err(e));
            var h := s.header - {CanonicalHeaderKey(ContentLengthHeader)};
            && r.status == StatusInternalServerError
            && r.events == s.events + [
                 Final(StatusInternalServerError,
                       h[CanonicalHeaderKey(ContentTypeHeader) := TextContentType][CanonicalHeaderKey(NoSniffHeader) := "nosniff"]),
                 Body(e + "\n")]
  {
  }

  /** Encoding first changes nothing when the encoding succeeds. */
  lemma JsonEncodeFirstAgrees(s: WriterState, status: int, t: string)
    requires ValidCode(status)
    ensures JsonEncodeFirstOn(s, status, Ok(t)) == JsonOn(s, status, Ok(t))
  {
  }

  // ---- The objects ---------------------------------------------------

  /** An http.ResponseWriter. */
  class Writer {
    var header: Header
    var wroteHeader: bool
    var status: int
    var events: seq<Event>

    function State(): WriterState
      reads this
    {
      WriterState(header, wroteHeader, status, events)
    }

    constructor ()
      ensures State() == Initial
    {
      header, wroteHeader, status, events := map[], false, 0, [];
    }

    method Set(name: string, value: string)
      modifies this
      ensures State() == SetOn(old(State()), name, value)
    {
      header := header[CanonicalHeaderKey(name) := value];
    }

    method Del(name: string)
      modifies this
      ensures State() == DelOn(old(State()), name)
    {
      header := header - {CanonicalHeaderKey(name)};
    }

    method WriteHeader(code: int)
      requires ValidCode(code)
      modifies this
      ensures State() == WriteHeaderOn(old(State()), code)
    {
      if wroteHeader {
        return;
      }
      if IsInformational(code) {
        events := events + [Informational(code, header)];
        return;
      }
      wroteHeader := true;
      status := code;
      events := events + [Final(code, header)];
    }

    method Write(data: string) returns (n: int, err: Option<string>)
      modifies this
      ensures (State(), n, err) == WriteOn(old(State()), data)
    {
      if !wroteHeader {
        WriteHeader(StatusOK);
      }
      if data == [] {
        return 0, None;
      }
      if !BodyAllowed(status) {
        return 0, Some(ErrBodyNotAllowed);
      }
      events := events + [Body(data)];
      n, err := Utf8Length(data), None;
    }
  }

  /** http.Error. */
  method HttpError(w: Writer, error: string, code: int)
    requires ValidCode(code)
    modifies w
    ensures w.State() == ErrorOn(old(w.State()), error, code)
  {
    w.Del(ContentLengthHeader);
    w.Set(ContentTypeHeader, TextContentType);
    w.Set(NoSniffHeader, "nosniff");
    w.WriteHeader(code);
    var _, _ := w.Write(error + "\n");
  }

  class Response {
    const w: Writer
    var statusCode: int

    /** GetResponse: wraps the writer with status 200. */
    constructor (w: Writer)
      ensures this.w == w && statusCode == StatusOK
    {
      this.w := w;
      statusCode := StatusOK;
    }

    method Status(code: int) returns (r: Response)
      modifies this`statusCode
      ensures statusCode == code && r == this
    {
      statusCode := code;
      r := this;
    }

    method SetHeader(header: string, value: string) returns (r: Response)
      modifies w
      ensures w.State() == SetOn(old(w.State()), header, value) && r == this
      ensures statusCode == old(statusCode)
    {
      w.Set(header, value);
      r := this;
    }

    method SetContentType(t: string) returns (r: Response)
      modifies w
      ensures w.State() == SetOn(old(w.State()), ContentTypeHeader, t) && r == this
      ensures statusCode == old(statusCode)
    {
      r := SetHeader(ContentTypeHeader, t);
      r := this;
    }

    method Json<V>(data: V, encode: V -> Result<string, string>) returns (r: Response)
      requires ValidCode(statusCode)
      modifies w
      ensures w.State() == JsonOn(old(w.State()), statusCode, encode(data)) && r == this
      ensures statusCode == old(statusCode)
    {
      ghost var s0 := w.State();
      r := SetContentType(JsonContentType);
      w.WriteHeader(statusCode);
      ghost var s2 := WriteHeaderOn(SetOn(s0, ContentTypeHeader, JsonContentType), statusCode);
      assert w.State() == s2;
      match encode(data)
      case Ok(t) =>
        var _, err := w.Write(t + "\n");
        assert (w.State(), err) == (WriteOn(s2, t + "\n").0, WriteOn(s2, t + "\n").2);
        if err.Some? {
          HttpError(w, err.value, StatusInternalServerError);
        }
      case Err(e) =>
        HttpError(w, e, StatusInternalServerError);
    }

    /** Json with the encoding done before anything is written, so an encoding failure can still answer 500. */
    method JsonEncodeFirst<V>(data: V, encode: V -> Result<string, string>) returns (r: Response)
      requires ValidCode(statusCode)
      modifies w
      ensures w.State() == JsonEncodeFirstOn(old(w.State()), statusCode, encode(data)) && r == this
      ensures statusCode == old(statusCode)
    {
      r := this;
      match encode(data)
      case Err(e) =>
        HttpError(w, e, StatusInternalServerError);
      case Ok(t) =>
        ghost var s0 := w.State();
        var _ := SetContentType(JsonContentType);
        w.WriteHeader(statusCode);
        ghost var s2 := WriteHeaderOn(SetOn(s0, ContentTypeHeader, JsonContentType), statusCode);
        assert w.State() == s2;
        var _, err := w.Write(t + "\n");
        assert (w.State(), err) == (WriteOn(s2, t + "\n").0, WriteOn(s2, t + "\n").2);
        if err.Some? {
          HttpError(w, err.value, StatusInternalServerError);
        }
    }

    method Text(text: string) returns (n: int, err: Option<string>)
      requires ValidCode(statusCode)
      modifies w
      ensures (w.State(), n, err) == TextOn(old(w.State()), statusCode, text)
      ensures statusCode == old(statusCode)
    {
      var _ := SetContentType(TextContentType);
      w.WriteHeader(statusCode);
      n, err := w.Write(text);
    }
  }
}
