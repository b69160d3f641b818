// The producer service's HTTP middleware: client address selection, status capture, and the
// CORS and security headers.
module Middleware {
  import opened Text

  /**
   * A request's headers: name to values, in order. Names are kept in Go's canonical spelling
   * (each word capitalised, so X-Real-IP is stored as X-Real-Ip), which is how net/http stores them.
   */
  type RequestHeader = map<string, seq<string>>

  /** Header.Get for a name in canonical spelling: its first value, "" when there is none. */
  function Get(h: RequestHeader, key: string): string {
    if key in h && |h[key]| > 0 then h[key][0] else ""
  }

  /** getClientIP: X-Forwarded-For when non-empty, else X-Real-IP when non-empty, else the remote address. */
  function ClientIP(h: RequestHeader, remoteAddr: string): (ip: string)
    ensures Get(h, "X-Forwarded-For") != "" ==> ip == Get(h, "X-Forwarded-For")
    ensures Get(h, "X-Forwarded-For") == "" && Get(h, "X-Real-Ip") != "" ==> ip == Get(h, "X-Real-Ip")
    ensures Get(h, "X-Forwarded-For") == "" && Get(h, "X-Real-Ip") == "" ==> ip == remoteAddr
    ensures ip == "" ==> remoteAddr == ""
  {
    var forwarded := Get(h, "X-Forwarded-For");
    if forwarded != "" then forwarded
    else
      var realIp := Get(h, "X-Real-Ip");
      if realIp != "" then realIp else remoteAddr
  }

  const CorsHeaders: map<string, string> := map[]
    ["Access-Control-Allow-Origin" := "*"]
    ["Access-Control-Allow-Methods" := "GET, POST, PUT, DELETE, OPTIONS"]
    ["Access-Control-Allow-Headers" := "Content-Type, Authorization, X-Requested-With"]
    ["Access-Control-Max-Age" := "86400"]

  const SecurityHeaders: map<string, string> := map[]
    ["X-Content-Type-Options" := "nosniff"]
    ["X-Frame-Options" := "DENY"]
    ["X-Xss-Protection" := "1; mode=block"]
    ["Strict-Transport-Security" := "max-age=31536000; includeSubDomains"]

  /** The status the recording wrapper reports after the given WriteHeader calls: the last code, 200 before any. */
  function Captured(codes: seq<int>): int {
    if |codes| == 0 then 200 else codes[|codes| - 1]
  }

  /**
   * The response writer as the middleware sees it: its header map, the status captured by the
   * status-recording wrapper, and the status codes passed on to the underlying writer.
   */
  class ResponseWriter {
    var header: map<string, string>
    var statusCode: int
    var written: seq<int>

    /** The captured status always agrees with the codes written so far. */
    predicate Valid()
      reads this
    {
      statusCode == Captured(written)
    }

    /** The wrapper starts at 200 OK. */
    constructor (header: map<string, string>)
      ensures this.header == header && statusCode == 200 && written == [] && Valid()
    {
      this.header := header;
      statusCode := 200;
      written := [];
    }

    /** Header().Set: the value replaces any earlier one. */
    method SetHeader(key: string, value: string)
      modifies this`header
      ensures header == old(header)[key := value]
    {
      header := header[key := value];
    }

    /** WriteHeader: the code is recorded and passed on. */
    method WriteHeader(code: int)
      modifies this`statusCode, this`written
      ensures statusCode == code && written == old(written) + [code]
      ensures Valid()
    {
      statusCode := code;
      written := written + [code];
    }
  }

  /** The header map after setting each of `fs`: those names get their values, the rest keep theirs. */
  function Overlay(h: map<string, string>, fs: map<string, string>): (r: map<string, string>)
    ensures forall k :: k in fs ==> k in r && r[k] == fs[k]
    ensures forall k :: k !in fs ==> (k in r <==> k in h) && (k in h ==> r[k] == h[k])
  {
    h + fs
  }

  /** Four Set calls in a row leave the overlay of the four headers, a later name winning. */
  lemma OverlayFour(h: map<string, string>, k1: string, v1: string, k2: string, v2: string,
                    k3: string, v3: string, k4: string, v4: string)
    ensures h[k1 := v1][k2 := v2][k3 := v3][k4 := v4]
      == Overlay(h, map[][k1 := v1][k2 := v2][k3 := v3][k4 := v4])
  {
  }

  /**
   * The CORS middleware: the four CORS headers are set on every request; a preflight OPTIONS
   * request is answered with 200 and goes no further, anything else is passed to the next handler.
   */
  method Cors(w: ResponseWriter, requestMethod: string) returns (callNext: bool)
    modifies w`header, w`statusCode, w`written
    ensures w.header == Overlay(old(w.header), CorsHeaders)
    ensures callNext <==> requestMethod != "OPTIONS"
    ensures callNext ==> w.statusCode == old(w.statusCode) && w.written == old(w.written)
    ensures !callNext ==> w.statusCode == 200 && w.written == old(w.written) + [200]
  {
    w.SetHeader("Access-Control-Allow-Origin", "*");
    w.SetHeader("Access-Control-Allow-Methods", "GET, POST, PUT, DELETE, OPTIONS");
    w.SetHeader("Access-Control-Allow-Headers", "Content-Type, Authorization, X-Requested-With");
    w.SetHeader("Access-Control-Max-Age", "86400");
    OverlayFour(old(w.header), "Access-Control-Allow-Origin", "*",
      "Access-Control-Allow-Methods", "GET, POST, PUT, DELETE, OPTIONS",
      "Access-Control-Allow-Headers", "Content-Type, Authorization, X-Requested-With",
      "Access-Control-Max-Age", "86400");
    if requestMethod == "OPTIONS" {
      w.WriteHeader(200);
      return false;
    }
    callNext := true;
  }

  /** The security middleware: its four headers are set, then the next handler runs. */
  method Security(w: ResponseWriter) returns (callNext: bool)
    modifies w`header
    ensures w.header == Overlay(old(w.header), SecurityHeaders)
    ensures callNext
  {
    w.SetHeader("X-Content-Type-Options", "nosniff");
    w.SetHeader("X-Frame-Options", "DENY");
    w.SetHeader("X-Xss-Protection", "1; mode=block");
    w.SetHeader("Strict-Transport-Security", "max-age=31536000; includeSubDomains");
    OverlayFour(old(w.header), "X-Content-Type-Options", "nosniff", "X-Frame-Options", "DENY",
      "X-Xss-Protection", "1; mode=block",
      "Strict-Transport-Security", "max-age=31536000; includeSubDomains");
    assert w.header == Overlay(old(w.header), SecurityHeaders);
    callNext := true;
  }
}
