/**
 The two key-checking middlewares in front of the handlers. Each compares one
 request header with one configured secret using JavaScript's strict equality,
 so an absent header (`undefined`) equals an unset secret (`undefined`).
 */
module Gates {
  import opened Wrappers
  import opened Accounts

  /** The HTTP status of a gate rejection. */
  const Forbidden: nat := 403

  /** An HTTP response as the client sees it: a status and a JSON body. */
  datatype Reply = Reply(status: nat, body: Body)

  /** A middleware either passes the request on (`next()`) or answers it itself. */
  datatype Verdict = Next | Reject(reply: Reply)

  /** The `/admin` middleware: `x-admin-key` must equal `ADMIN_KEY`, else 403 `{ok:false, error:"BAD_ADMIN_KEY"}`. */
  function AdminGate(header: Option<string>, adminKey: Option<string>): (v: Verdict)
    ensures v.Next? <==> header == adminKey
    ensures v.Reject? ==> v.reply == Reply(Forbidden, Errored(false, BadAdminKey))
  {
    if header != adminKey then Reject(Reply(Forbidden, Errored(false, BadAdminKey))) else Next
  }

  /** The `/api` middleware: `x-api-key` must equal `API_KEY`, else 403 `{ok:false, code:"INVALID_API_KEY"}`. */
  function ApiGate(header: Option<string>, apiKey: Option<string>): (v: Verdict)
    ensures v.Next? <==> header == apiKey
    ensures v.Reject? ==> v.reply == Reply(Forbidden, Coded(false, InvalidApiKey))
  {
    if header != apiKey then Reject(Reply(Forbidden, Coded(false, InvalidApiKey))) else Next
  }

  /**
   With the key left unset in the environment, a request that sends no header
   passes, and one that sends any header at all, even an empty one, is refused.
   */
  lemma UnsetKeyAdmitsOnlyAbsentHeader(header: Option<string>)
    ensures AdminGate(header, None).Next? <==> header.None?
    ensures ApiGate(header, None).Next? <==> header.None?
    ensures AdminGate(None, None) == Next && ApiGate(None, None) == Next
  {
  }
}
