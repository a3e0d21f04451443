/**
 * The Express middleware both servers install around their routes: the
 * request logger, which captures the last body passed to `res.json` and logs
 * one line per `/api` request when the response finishes, and the global
 * error handler, which picks a status and a message for an escaped error.
 * `JSON.stringify` is a parameter; the elapsed time is a number given to the
 * logger.
 */
module Middleware {
  import opened Wrappers
  import opened Strings
  import opened Js

  /** `${method} ${path} ${statusCode} in ${duration}ms`, then ` :: <json>` when a truthy body was captured. */
  function Describe(verb: string, path: string, status: int, duration: int, body: JsValue,
                    stringify: JsValue -> string): (line: string)
    ensures StartsWith(line, verb + " " + path + " " + IntToString(status) + " in " + IntToString(duration) + "ms")
    ensures Truthy(body) <==> |line| > |verb + " " + path + " " + IntToString(status) + " in " + IntToString(duration) + "ms"|
    ensures var head := verb + " " + path + " " + IntToString(status) + " in " + IntToString(duration) + "ms";
      (Truthy(body) ==> line[|head|..] == " :: " + stringify(body)) && (!Truthy(body) ==> line == head)
  {
    var head := verb + " " + path + " " + IntToString(status) + " in " + IntToString(duration) + "ms";
    if Truthy(body) then head + " :: " + stringify(body) else head
  }

  /** A line longer than `cap` keeps its first `cap - 1` characters and gets `suffix`. */
  function Truncate(line: string, cap: nat, suffix: string): (r: string)
    requires cap >= 1
    ensures |line| <= cap ==> r == line
    ensures |line| > cap ==> |r| == cap - 1 + |suffix| && r == line[..cap - 1] + suffix
  {
    if |line| > cap then line[..cap - 1] + suffix else line
  }

  /** A truncated line is never longer than `cap` exactly when the suffix is one character or less. */
  lemma TruncateBound(line: string, cap: nat, suffix: string)
    requires cap >= 1
    ensures |suffix| <= 1 ==> |Truncate(line, cap, suffix)| <= cap
    ensures |suffix| > 1 && |line| > cap ==> |Truncate(line, cap, suffix)| > cap
    ensures StartsWith(line, Truncate(line, cap, suffix)[..if |line| > cap then cap - 1 else |line|])
  {
  }

  /** The `res` object as far as the logger sees it. */
  class LoggedResponse {
    /** The body the overriding `res.json` last captured; `undefined` until it is called. */
    var captured: JsValue
    /** Every body passed on to the original `res.json`, in order. */
    var written: seq<JsValue>

    constructor ()
      ensures captured == Undefined && written == []
    {
      captured := Undefined;
      written := [];
    }

    /** The overriding `res.json(body)`: remember the body, then send it as before. */
    method Json(body: JsValue)
      modifies this
      ensures captured == body
      ensures written == old(written) + [body]
    {
      captured := body;
      written := written + [body];
    }

    /**
     * The `finish` listener: nothing outside `/api`; otherwise the described
     * line, cut to `cap` with `suffix`.
     */
    method FinishLine(verb: string, path: string, status: int, duration: int, cap: nat, suffix: string,
                      stringify: JsValue -> string) returns (line: Option<string>)
      requires cap >= 1
      ensures line.None? <==> !StartsWith(path, "/api")
      ensures line.Some? ==> line.value == Truncate(Describe(verb, path, status, duration, captured, stringify), cap, suffix)
    {
      if !StartsWith(path, "/api") {
        return None;
      }
      var text := verb + " " + path + " " + IntToString(status) + " in " + IntToString(duration) + "ms";
      if Truthy(captured) {
        text := text + " :: " + stringify(captured);
      }
      if |text| > cap {
        text := text[..cap - 1] + suffix;
      }
      line := Some(text);
    }
  }

  /** `err.status || err.statusCode || 500`: the first truthy of the two properties, else 500. */
  function ErrorStatus(err: JsValue): (s: JsValue)
    ensures Truthy(s)
    ensures Truthy(Prop(err, "status")) ==> s == Prop(err, "status")
    ensures !Truthy(Prop(err, "status")) && Truthy(Prop(err, "statusCode")) ==> s == Prop(err, "statusCode")
    ensures !Truthy(Prop(err, "status")) && !Truthy(Prop(err, "statusCode")) ==> s == Num(500)
  {
    if Truthy(Prop(err, "status")) then Prop(err, "status")
    else if Truthy(Prop(err, "statusCode")) then Prop(err, "statusCode")
    else Num(500)
  }

  /** `err.message || "Internal Server Error"`. */
  function ErrorMessage(err: JsValue): (m: JsValue)
    ensures Truthy(m)
    ensures Truthy(Prop(err, "message")) <==> m == Prop(err, "message")
    ensures !Truthy(Prop(err, "message")) ==> m == Str("Internal Server Error")
  {
    if Truthy(Prop(err, "message")) then Prop(err, "message") else Str("Internal Server Error")
  }

  /** What the error handler sends: the chosen status and exactly `{ message }`. */
  datatype ErrorReply = ErrorReply(status: JsValue, body: JsValue)

  /**
   * The global error handler's response. Express hands it a thrown value that
   * is not `null` or `undefined`; reading a property of any other value works.
   */
  function HandleError(err: JsValue): (r: ErrorReply)
    requires !err.Undefined? && !err.Null?
    ensures r.status == ErrorStatus(err) && Truthy(r.status)
    ensures r.body.Obj? && r.body.fields.Keys == {"message"} && Prop(r.body, "message") == ErrorMessage(err)
  {
    ErrorReply(ErrorStatus(err), Obj(map["message" := ErrorMessage(err)]))
  }

  /** A numeric status set on the error wins over `statusCode` and the default. */
  lemma ExplicitStatusWins(fields: map<string, JsValue>, code: int)
    requires code != 0
    ensures HandleError(Obj(fields["status" := Num(code)])).status == Num(code)
  {
  }

  /** An error with neither property, or with both set to 0, is a 500 "Internal Server Error". */
  lemma PlainErrorIs500(fields: map<string, JsValue>)
    requires forall k :: k in fields ==> k !in {"status", "statusCode", "message"}
    ensures HandleError(Obj(fields)) == ErrorReply(Num(500), Obj(map["message" := Str("Internal Server Error")]))
    ensures HandleError(Obj(fields["status" := Num(0)]["statusCode" := Num(0)])).status == Num(500)
  {
    assert "status" !in fields && "statusCode" !in fields && "message" !in fields;
  }
}

/** server/index.ts: the 80-character log line and the error handler. */
module ServerEntry {
  import opened Wrappers
  import opened Js
  import opened Middleware

  const LineCap: nat := 80

  /**
   * The suffix as the file spells it: the UTF-8 bytes of "…" read back as
   * three characters, "â", "€" and "¦".
   */
  const SuffixAsWritten := "\U{00E2}\U{20AC}\U{00A6}"

  /** The suffix the compiled bundle spells `…`: one character. */
  const Ellipsis := "\U{2026}"

  /** The line the logger writes as the file is written. */
  function LogLineAsWritten(line: string): (r: string)
    ensures |line| <= LineCap ==> r == line
  {
    Truncate(line, LineCap, SuffixAsWritten)
  }

  /** As written, every overlong line is logged at 82 characters, not the 80 the cut aims for. */
  lemma AsWrittenOverflows(line: string)
    requires |line| > LineCap
    ensures |LogLineAsWritten(line)| == 82
  {
  }

  /** The intended line: at most 80 characters, the first 79 of an overlong line kept. */
  function LogLine(line: string): (r: string)
    ensures |r| <= LineCap
    ensures |line| <= LineCap ==> r == line
    ensures |line| > LineCap ==> |r| == LineCap && r[..LineCap - 1] == line[..LineCap - 1] && r[LineCap - 1] == '\U{2026}'
  {
    TruncateBound(line, LineCap, Ellipsis);
    Truncate(line, LineCap, Ellipsis)
  }

  /** The two agree on every line short enough to be kept whole. */
  lemma AsWrittenAgreesOnShortLines(line: string)
    ensures |line| <= LineCap <==> LogLineAsWritten(line) == LogLine(line)
  {
    if |line| > LineCap {
      assert |LogLineAsWritten(line)| != |LogLine(line)|;
    }
  }
}

/** Admin/server/index.ts: the 120-character log line, the logged error, and the port. */
module AdminEntry {
  import opened Wrappers
  import opened Strings
  import opened Js
  import opened Middleware

  const LineCap: nat := 120
  const Ellipsis := "\U{2026}"

  /** `logLine.length > 120 ? logLine.slice(0, 119) + "…" : logLine`. */
  function LogLine(line: string): (r: string)
    ensures |r| <= LineCap
    ensures |line| <= LineCap ==> r == line
    ensures |line| > LineCap ==> |r| == LineCap && r[..LineCap - 1] == line[..LineCap - 1] && r[LineCap - 1] == '\U{2026}'
  {
    TruncateBound(line, LineCap, Ellipsis);
    Truncate(line, LineCap, Ellipsis)
  }

  /** `Error: ${message} (${status})`, logged before the response is sent. */
  function ErrorLog(err: JsValue): (r: string)
    requires !err.Undefined? && !err.Null?
    ensures var reply := HandleError(err);
      r == "Error: " + ToJsString(Prop(reply.body, "message")) + " (" + ToJsString(reply.status) + ")"
    ensures StartsWith(r, "Error: ") && r[|r| - 1] == ')'
  {
    "Error: " + ToJsString(ErrorMessage(err)) + " (" + ToJsString(ErrorStatus(err)) + ")"
  }

  predicate IsSpace(c: char)
  {
    c == ' ' || c == '\t' || c == '\n' || c == '\r' || c == '\U{000B}' || c == '\U{000C}'
  }

  function TrimStart(s: string): (r: string)
    ensures |r| <= |s|
    ensures |r| > 0 ==> !IsSpace(r[0])
  {
    if |s| > 0 && IsSpace(s[0]) then TrimStart(s[1..]) else s
  }

  function TrimEnd(s: string): (r: string)
    ensures |r| <= |s|
    ensures |r| > 0 ==> !IsSpace(r[|r| - 1])
  {
    if |s| > 0 && IsSpace(s[|s| - 1]) then TrimEnd(s[..|s| - 1]) else s
  }

  /**
   * `Number(s)` for decimal integers: surrounding white space is ignored, the
   * empty string is 0, an optional sign precedes the digits; `None` is NaN.
   */
  function ToNumber(s: Option<string>): (n: Option<int>)
    ensures s.None? ==> n.None?
  {
    match s
    case None => None
    case Some(text) =>
      var t := TrimEnd(TrimStart(text));
      if t == "" then Some(0)
      else if t[0] == '+' then (match ParseNat(t[1..]) case Some(v) => Some(v) case None => None)
      else ParseInt(t)
  }

  /** `Number(process.env.PORT) || 8080`. */
  function Port(env: Option<string>): (p: int)
    ensures p != 0
    ensures ToNumber(env).None? || ToNumber(env) == Some(0) ==> p == 8080
    ensures ToNumber(env).Some? && ToNumber(env).value != 0 ==> p == ToNumber(env).value
  {
    match ToNumber(env)
    case None => 8080
    case Some(v) => if v == 0 then 8080 else v
  }

  /** A PORT written as a positive decimal number is that port; a missing, empty, zero or non-numeric one is 8080. */
  lemma PortFromEnvironment(n: nat)
    ensures n > 0 ==> Port(Some(NatToString(n))) == n
    ensures Port(None) == 8080 && Port(Some("")) == 8080 && Port(Some("0")) == 8080 && Port(Some("http")) == 8080
  {
    var t := NatToString(n);
    assert !IsSpace(t[0]) && !IsSpace(t[|t| - 1]) by {
      assert IsDigit(t[0]) && IsDigit(t[|t| - 1]);
    }
    assert TrimStart(t) == t;
    assert TrimEnd(t) == t;
    ParseNatToString(n);
    assert t[0] != '-' && t[0] != '+' by { assert IsDigit(t[0]); }
    assert Port(Some("0")) == 8080 by {
      assert TrimEnd(TrimStart("0")) == "0";
      assert ParseInt("0") == Some(0) by { assert DigitsValue("0") == 0 by { assert "0"[..0] == ""; } }
    }
    assert Port(Some("http")) == 8080 by {
      assert TrimEnd(TrimStart("http")) == "http";
      assert !IsDigit("http"[0]);
    }
  }
}
