/** The values the services exchange: e-mail orders, requests, and the events they publish. */
module Messages {

  datatype Option<+T> = None | Some(value: T)

  // Identifiers are UUIDs in the source; only their equality matters here.
  type SagaId = nat

  /** packages/contracts/src/email-message.ts: the two kinds of e-mail order. */
  datatype EmailMessage =
    | ReleaseMail(key: string, email: string, repo: string, tag: string, unsubscribeToken: string)
    | ConfirmationMail(key: string, email: string, repo: string, confirmToken: string, sagaId: SagaId)

  /** The content of a queued message: an order, or bytes the schema refuses. */
  datatype Body = Valid(m: EmailMessage) | Invalid

  /** The request of the gRPC transport. */
  datatype Request = Request(email: string, repo: string, tag: string,
                             unsubscribeToken: string, idempotencyKey: string)

  /** The mail a request asks for. */
  function RequestMail(req: Request): EmailMessage {
    ReleaseMail(req.idempotencyKey, req.email, req.repo, req.tag, req.unsubscribeToken)
  }

  /** What the gRPC callback receives. */
  datatype Code = Sent | Duplicate | InvalidArgument | Unavailable | Aborted | Internal
}
