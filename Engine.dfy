/**
 * What the panel sees of the verification engine's objects: the request as it
 * stands at one moment, its originating event, verifier identities and the
 * `show_sas` payload.
 */
module Engine {
  import opened Wrappers

  /** Identity of a verifier instance created by the verification engine. */
  type VerifierId = nat

  /** The event that opened the request; `id` is "" when getId() gives nothing. */
  datatype RequestEvent = RequestEvent(id: string)

  /** The `show_sas` payload: the verifier that emitted it and its comparison data. */
  datatype SasEvent = SasEvent(verifier: VerifierId, sas: seq<nat>)

  /** What the panel reads from the verification request at one moment. */
  datatype Request = Request(
    otherUserId: string,
    cancellationCode: Option<string>,
    cancellingUserId: Option<string>,
    requestEvent: Option<RequestEvent>,
    encodedSharedSecret: string,
    verifier: Option<VerifierId>)
}
