/**
 * The two authenticated POST routes. Each authorizes the request, formats the
 * payload, and hands the text to `send_to_telegram` exactly once; a rejected
 * request sends nothing. The chat is modelled as the sequence of texts handed
 * to the sender, and whether delivery succeeds is an input.
 */
module Routes {
  import opened Wrappers
  import opened Values
  import opened Formatter
  import opened Auth

  /** 200 `{"status": "sent"}`, an `HTTPException`, or an unhandled error (500). */
  datatype Response = Sent | HttpError(status: int, detail: string) | ServerError

  class Bridge {
    /** `SECRET_TOKEN`, read once at startup. */
    const secretToken: string
    /** Every text handed to `send_to_telegram`, oldest first. */
    ghost var sent: seq<string>

    /** A running bridge has a non-empty secret: startup refuses to run without one. */
    ghost predicate Valid() {
      secretToken != ""
    }

    constructor (secretToken: string)
      requires secretToken != ""
      ensures Valid()
      ensures this.secretToken == secretToken && sent == []
    {
      this.secretToken := secretToken;
      sent := [];
    }

    /** `send_to_telegram`: one Bot API call for `text`; `delivered` is the network's answer. */
    method SendToTelegram(text: string, delivered: bool) returns (ok: bool)
      modifies this
      ensures sent == old(sent) + [text]
      ensures ok == delivered
    {
      sent := sent + [text];
      ok := delivered;
    }

    /** `POST /manual-signal`: the secret travels in the body, which is then formatted like any payload. */
    method ManualSignalPost(body: Payload, delivered: bool) returns (resp: Response)
      requires Valid()
      modifies this
      ensures Valid()
      ensures AuthorizeBody(body, secretToken) != Authorized ==>
        resp == HttpError(401, "Invalid secret") && sent == old(sent)
      ensures AuthorizeBody(body, secretToken) == Authorized && SignalMessage(body) == SideNotText ==>
        resp == ServerError && sent == old(sent)
      ensures AuthorizeBody(body, secretToken) == Authorized && SignalMessage(body).Message? ==>
        sent == old(sent) + [SignalMessage(body).text] && resp == (if delivered then Sent else ServerError)
    {
      if AuthorizeBody(body, secretToken) != Authorized {
        return HttpError(401, "Invalid secret");
      }
      var formatted := FormatSignalMessage(body);
      if formatted == SideNotText {
        return ServerError;
      }
      var ok := SendToTelegram(formatted.text, delivered);
      resp := if ok then Sent else ServerError;
    }

    /** `POST /webhook`: the secret travels as a bearer token; the JSON body is the payload. */
    method Webhook(authorization: Option<string>, payload: Payload, delivered: bool) returns (resp: Response)
      requires Valid()
      modifies this
      ensures Valid()
      ensures authorization == Some(BearerPrefix) ==>
        resp == HttpError(403, "Invalid secret token") && sent == old(sent)
      ensures AuthorizeBearer(authorization, secretToken) == Unauthorized401 ==>
        resp == HttpError(401, "Unauthorized") && sent == old(sent)
      ensures AuthorizeBearer(authorization, secretToken) == Forbidden403 ==>
        resp == HttpError(403, "Invalid secret token") && sent == old(sent)
      ensures AuthorizeBearer(authorization, secretToken) == Authorized && SignalMessage(payload) == SideNotText ==>
        resp == ServerError && sent == old(sent)
      ensures AuthorizeBearer(authorization, secretToken) == Authorized && SignalMessage(payload).Message? ==>
        sent == old(sent) + [SignalMessage(payload).text] && resp == (if delivered then Sent else ServerError)
    {
      EmptyTokenForbidden(secretToken);
      var auth := AuthorizeBearer(authorization, secretToken);
      if auth == Unauthorized401 {
        return HttpError(401, "Unauthorized");
      }
      if auth == Forbidden403 {
        return HttpError(403, "Invalid secret token");
      }
      var formatted := FormatSignalMessage(payload);
      if formatted == SideNotText {
        return ServerError;
      }
      var ok := SendToTelegram(formatted.text, delivered);
      resp := if ok then Sent else ServerError;
    }
  }
}
