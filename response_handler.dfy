/** `sendResponse`, `sendSuccess` and `sendError`: the JSON envelope of a reply. */
module ResponseHandler {
  import opened Common
  import opened Text

  /** The envelope `{ status, message, data }`; `None` is JSON `null`. */
  datatype Envelope<T> = Envelope(status: string, message: Option<string>, data: Option<T>)

  datatype Reply<T> = Reply(statusCode: int, body: Envelope<T>)

  /** "fail" when the decimal text of the code starts with "4", else "success". */
  function StatusWord(code: int): (w: string)
    ensures w == "fail" || w == "success"
  {
    if StartsWith(IntText(code), "4") then "fail" else "success"
  }

  /** For a positive code with leading digit `d` the word is "fail" exactly when `d` is 4. */
  lemma LeadingFour(code: nat, k: nat, d: nat)
    requires 1 <= d <= 9 && Pow10(k) * d <= code < Pow10(k) * (d + 1)
    ensures StatusWord(code) == "fail" <==> d == 4
  {
    NatTextLeading(code, k, d);
    assert IntText(code) == NatText(code);
  }

  /** A three-digit code gives "fail" iff it is a 4xx code; so every 5xx code gives "success". */
  lemma ThreeDigitCodes(code: int)
    requires 100 <= code < 1000
    ensures StatusWord(code) == "fail" <==> 400 <= code < 500
  {
    assert Pow10(2) == 100;
    var d := code / 100;
    LeadingFour(code, 2, d);
  }

  /** A negative code is written with a leading "-", so it always gives "success". */
  lemma NegativeCodes(code: int)
    requires code < 0
    ensures StatusWord(code) == "success"
  {
    assert IntText(code)[0] == '-';
  }

  /** `sendResponse(res, statusCode, data, message = null)`. */
  function SendResponse<T>(statusCode: int, data: Option<T>, message: Option<string>): (r: Reply<T>)
    ensures r.statusCode == statusCode && r.body.data == data && r.body.message == message
    ensures r.body.status == "fail" <==> StartsWith(IntText(statusCode), "4")
  {
    Reply(statusCode, Envelope(StatusWord(statusCode), message, data))
  }

  /** `sendSuccess`: passes its arguments straight to `sendResponse`. */
  function SendSuccess<T>(statusCode: int, data: T, message: Option<string>): (r: Reply<T>)
    ensures r.statusCode == statusCode && r.body.data == Some(data) && r.body.message == message
    ensures r.body.status == "fail" <==> StartsWith(IntText(statusCode), "4")
    ensures r.body.status == "fail" || r.body.status == "success"
    ensures 100 <= statusCode < 1000 ==> (r.body.status == "fail" <==> 400 <= statusCode < 500)
  {
    if 100 <= statusCode < 1000 then ThreeDigitCodes(statusCode); SendResponse(statusCode, Some(data), message)
    else SendResponse(statusCode, Some(data), message)
  }

  /** `sendError`: `sendResponse` with `data = null`. */
  function SendError<T>(statusCode: int, message: Option<string>): (r: Reply<T>)
    ensures r.statusCode == statusCode && r.body.data.None? && r.body.message == message
    ensures r.body.status == "fail" <==> StartsWith(IntText(statusCode), "4")
    ensures r.body.status == "fail" || r.body.status == "success"
    ensures 100 <= statusCode < 1000 ==> (r.body.status == "fail" <==> 400 <= statusCode < 500)
  {
    if 100 <= statusCode < 1000 then ThreeDigitCodes(statusCode); SendResponse(statusCode, None, message)
    else SendResponse(statusCode, None, message)
  }

  /** An error sent with a 5xx code carries the status word "success", as the prefix test gives. */
  lemma ServerErrorSaysSuccess<T>(statusCode: int, message: Option<string>)
    requires 500 <= statusCode < 600
    ensures SendError<T>(statusCode, message).body.status == "success"
  {
    var r := SendError<T>(statusCode, message);
    assert r.body.status != "fail";
  }
}
