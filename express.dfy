/**
 * The part of an Express response object the auth code writes to: the
 * status, the JSON body and the cookie instructions (`Set-Cookie` headers),
 * and the browser's cookie jar those instructions produce.
 */
module Express {
  import opened Js
  import opened ApiResponse

  /** The options `res.cookie` is given; `maxAge` is in milliseconds. */
  datatype CookieOptions = CookieOptions(httpOnly: bool, secure: bool, maxAge: nat, sameSite: string)

  /** One `Set-Cookie` instruction: `res.cookie(name, value, options)` or `res.clearCookie(name)`. */
  datatype CookieOp =
    | Set(name: string, value: string, options: CookieOptions)
    | Clear(name: string)

  /** A cookie held by the client. */
  datatype Cookie = Cookie(value: string, options: CookieOptions)

  /** The cookies the client holds after applying the instructions in order. */
  function Jar(start: map<string, Cookie>, ops: seq<CookieOp>): map<string, Cookie>
    decreases |ops|
  {
    if ops == [] then start
    else
      var last := ops[|ops| - 1];
      var before := Jar(start, ops[..|ops| - 1]);
      match last
      case Set(name, value, options) => before[name := Cookie(value, options)]
      case Clear(name) => before - {name}
  }

  /** Applying instructions in two batches is applying them all at once. */
  lemma {:induction false} JarAppend(start: map<string, Cookie>, ops: seq<CookieOp>, more: seq<CookieOp>)
    ensures Jar(start, ops + more) == Jar(Jar(start, ops), more)
    decreases |more|
  {
    if more == [] {
      assert ops + more == ops;
    } else {
      assert (ops + more)[..|ops + more| - 1] == ops + more[..|more| - 1];
      JarAppend(start, ops, more[..|more| - 1]);
    }
  }

  /** An Express response under construction. */
  class HttpResponse {
    var statusCode: int
    var body: Option<ApiBody>
    var cookieOps: seq<CookieOp>

    /** A fresh response: status 200, nothing written. */
    constructor()
      ensures statusCode == 200 && body == None && cookieOps == []
    {
      statusCode := 200;
      body := None;
      cookieOps := [];
    }

    /** `res.status(code)`. */
    method Status(code: int)
      modifies this
      ensures statusCode == code && body == old(body) && cookieOps == old(cookieOps)
    {
      statusCode := code;
    }

    /** `res.json(b)`. */
    method Json(b: ApiBody)
      modifies this
      ensures body == Some(b) && statusCode == old(statusCode) && cookieOps == old(cookieOps)
    {
      body := Some(b);
    }

    /** `res.cookie(name, value, options)`. */
    method Cookie(name: string, value: string, options: CookieOptions)
      modifies this
      ensures cookieOps == old(cookieOps) + [Set(name, value, options)]
      ensures statusCode == old(statusCode) && body == old(body)
    {
      cookieOps := cookieOps + [Set(name, value, options)];
    }

    /** `res.clearCookie(name)`. */
    method ClearCookie(name: string)
      modifies this
      ensures cookieOps == old(cookieOps) + [Clear(name)]
      ensures statusCode == old(statusCode) && body == old(body)
    {
      cookieOps := cookieOps + [Clear(name)];
    }
  }
}
