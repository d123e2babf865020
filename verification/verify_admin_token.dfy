/**
 * The admin-token middleware (backend/middleware/verifyAdminToken.js): take the
 * second space-separated field of the `Authorization` header as the token, let
 * `jwt.verify` classify it, and either call `next` with `req.user` set or answer
 * 401 / 403 itself. The scheme word before the token is never looked at.
 */
module AdminToken {
  import opened Common

  /** `String.prototype.split(' ')`: the fields between single spaces, empty ones included. */
  function Split(s: string): (r: seq<string>)
    ensures |r| >= 1
    ensures forall i :: 0 <= i < |r| ==> ' ' !in r[i]
    ensures Join(r) == s
  {
    if |s| == 0 then [""]
    else
      var rest := Split(s[1..]);
      if s[0] == ' ' then
        assert s == " " + s[1..];
        [""] + rest
      else
        assert s == [s[0]] + s[1..];
        if |rest| == 1 then [[s[0]] + rest[0]]
        else
          assert Join(rest) == rest[0] + " " + Join(rest[1..]);
          assert ([[s[0]] + rest[0]] + rest[1..])[1..] == rest[1..];
          [[s[0]] + rest[0]] + rest[1..]
  }

  /** `Array.prototype.join(' ')`, the inverse of `Split`. */
  function Join(fields: seq<string>): string
    requires |fields| >= 1
  {
    if |fields| == 1 then fields[0] else fields[0] + " " + Join(fields[1..])
  }

  /** A string without a space is a single field. */
  lemma {:induction false} SplitSpaceFree(s: string)
    requires ' ' !in s
    ensures Split(s) == [s]
  {
    if |s| > 0 {
      assert ' ' !in s[1..];
      SplitSpaceFree(s[1..]);
      assert [s[0]] + s[1..] == s;
    }
  }

  /** Two space-free words joined by one space split back into exactly those words. */
  lemma {:induction false} SplitTwoWords(a: string, b: string)
    requires ' ' !in a && ' ' !in b
    ensures Split(a + " " + b) == [a, b]
  {
    if |a| == 0 {
      assert a + " " + b == " " + b;
      assert (" " + b)[1..] == b;
      SplitSpaceFree(b);
    } else {
      var s := a + " " + b;
      assert s[1..] == a[1..] + " " + b;
      assert ' ' !in a[1..];
      SplitTwoWords(a[1..], b);
      assert [a[0]] + a[1..] == a;
    }
  }

  /** The claim set the login route signs: `{ id, username, role }`. */
  datatype Claims = Claims(id: Id, username: string, role: string)

  /** What `jwt.verify` returns: the claims plus the `iat` and `exp` it adds. */
  datatype Payload = Payload(claims: Claims, iat: int, exp: int)

  /**
   * The three ways `jwt.verify` ends: a decoded payload, a `TokenExpiredError`,
   * or any other error (bad signature, malformed token, ...).
   */
  datatype VerifyResult = Valid(payload: Payload) | Expired | Invalid

  datatype Reply = Reply(status: nat, success: bool, message: string)

  /**
   * What the middleware did to one request: how many times it called `next`,
   * the response it sent (if any), and the `req.user` it attached (if any).
   */
  datatype Outcome = Outcome(nextCalls: nat, reply: Option<Reply>, user: Option<Payload>)

  const NoTokenReply := Reply(UNAUTHORIZED, false, "Access denied. No token provided.")
  const ExpiredReply := Reply(UNAUTHORIZED, false, "Token has expired. Please log in again.")
  const InvalidReply := Reply(FORBIDDEN, false, "Invalid token")

  /** `header?.split(' ')[1]`: `None` when the header or its second field is missing. */
  function ExtractToken(header: Option<string>): Option<string> {
    if header.None? then None
    else
      var fields := Split(header.value);
      if |fields| < 2 then None else Some(fields[1])
  }

  /** `!token` is false: the token is present and not the empty string. */
  predicate TokenPresented(header: Option<string>) {
    ExtractToken(header).Some? && ExtractToken(header).value != ""
  }

  /** `verifyAdminToken(req, res, next)`; `verify` stands for `jwt.verify` with the server's secret. */
  function VerifyAdminToken(header: Option<string>, verify: string -> VerifyResult): (r: Outcome)
    ensures r.nextCalls + (if r.reply.Some? then 1 else 0) == 1
    ensures !TokenPresented(header) ==> r.reply == Some(NoTokenReply)
    ensures TokenPresented(header) && verify(ExtractToken(header).value).Expired? ==> r.reply == Some(ExpiredReply)
    ensures TokenPresented(header) && verify(ExtractToken(header).value).Invalid? ==> r.reply == Some(InvalidReply)
    ensures r.nextCalls == 1 <==> TokenPresented(header) && verify(ExtractToken(header).value).Valid?
    ensures r.nextCalls == 1 ==> r.user == Some(verify(ExtractToken(header).value).payload)
    ensures r.nextCalls == 0 ==> r.user.None?
  {
    var token := ExtractToken(header);
    if token.None? || token.value == "" then Outcome(0, Some(NoTokenReply), None)
    else
      match verify(token.value)
      case Valid(p) => Outcome(1, None, Some(p))
      case Expired => Outcome(0, Some(ExpiredReply), None)
      case Invalid => Outcome(0, Some(InvalidReply), None)
  }

  /** A header with no space in it carries no token. */
  lemma {:induction false} HeaderWithoutSpaceRejected(header: string, verify: string -> VerifyResult)
    requires ' ' !in header
    ensures VerifyAdminToken(Some(header), verify) == Outcome(0, Some(NoTokenReply), None)
  {
    SplitSpaceFree(header);
  }

  /**
   * Whatever word stands before the token, and whatever role the verified claims
   * carry, a validly signed and unexpired token lets the request through.
   */
  lemma {:induction false} SchemeAndRoleIgnored(scheme: string, token: string, verify: string -> VerifyResult)
    requires ' ' !in scheme && ' ' !in token && token != ""
    requires verify(token).Valid?
    ensures VerifyAdminToken(Some(scheme + " " + token), verify)
         == Outcome(1, None, Some(verify(token).payload))
  {
    SplitTwoWords(scheme, token);
  }
}
