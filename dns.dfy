/** The DNS provider's records, the mutations the updater sends, and the
    parts of the provider's JSON replies that the updater looks at. */
module Dns {
  import opened Common

  datatype RecordType = A | AAAA

  function TypeName(t: RecordType): string {
    match t
    case A => "A"
    case AAAA => "AAAA"
  }

  /** One entry of a `dns_records?type=...` listing. */
  datatype DnsRecord = DnsRecord(id: string, name: string, content: string, ttl: int, proxied: bool)

  /** A mutation of the zone: a PUT of new content to an existing record
      (`previous` is the content it replaces, used only in messages), or a POST
      creating an AAAA record. */
  datatype Action =
    | Update(rtype: RecordType, id: string, name: string, previous: string, content: string, ttl: int, proxied: bool)
    | Create(name: string, content: string, ttl: int, proxied: bool)

  /** The `errors` member of a reply: absent, or a list whose entries may
      lack a `message`. */
  type ErrorList = Option<seq<Option<string>>>

  /** Reply to `/user/tokens/verify`: `success`, `result.status` (absent when
      `result` or `status` is missing) and `errors`. */
  datatype VerifyReply = VerifyReply(success: bool, status: Option<string>, errors: ErrorList)

  /** Reply to `/zones?name=...`: the `result` list, as the `id` of each entry
      (None for an entry without one); None when `result` is missing. */
  datatype ZoneReply = ZoneReply(result: Option<seq<Option<string>>>)

  /** Reply to a listing: the `result` list, None when it is missing. */
  datatype ListReply = ListReply(result: Option<seq<DnsRecord>>)

  /** Reply to a PUT or POST of a record. */
  datatype MutationReply = MutationReply(success: bool, errors: ErrorList)

  /** The token is accepted when `success` is true and `result.status` is `active`. */
  predicate TokenAccepted(r: VerifyReply) {
    r.success && r.status == Some("active")
  }

  /** `response.get('errors', [{'message': 'Unknown error'}])[0].get('message')`
      as text: None when the list is present but empty (the indexing raises
      IndexError), "None" for an entry without a message. */
  function FirstErrorMessage(errors: ErrorList): Option<string> {
    match errors
    case None => Some("Unknown error")
    case Some(entries) =>
      if entries == [] then None
      else Some(if entries[0].Some? then entries[0].value else "None")
  }

  /** `response['result'][0]['id']`: None when that raises KeyError or IndexError. */
  function ZoneIdOf(r: ZoneReply): Option<string> {
    if r.result.Some? && |r.result.value| > 0 then r.result.value[0] else None
  }

  /** The text Python gives `str(IndexError)` for a list index out of range. */
  const IndexErrorText := "list index out of range"

  /** The text Python gives `str(KeyError('result'))`. */
  const MissingResultText := "'result'"

  /** How running `ip -6 addr show <interface>` went: its output, a non-zero
      exit status (CalledProcessError), or any other failure (the command
      could not be started, say). */
  datatype IpCommand = Output(text: string) | CommandFailed(detail: string) | LaunchFailed(detail: string)

  /** The answers the outside world gives during one run: to the token check,
      the public IPv4 request, the `ip` command, the zone lookup, the two
      listings, and the n-th mutating request of the run. */
  datatype Service = Service(
    verify: Call<VerifyReply>,
    publicIp: Call<string>,
    ipCommand: IpCommand,
    zone: Call<ZoneReply>,
    aListing: Call<ListReply>,
    aaaaListing: Call<ListReply>,
    mutations: nat -> Call<MutationReply>)

  /** Both listings were answered with a `result` list. */
  predicate ListingsRead(api: Service) {
    && api.aListing.Delivered? && api.aListing.reply.result.Some?
    && api.aaaaListing.Delivered? && api.aaaaListing.reply.result.Some?
  }

  /** The provider replies to every mutating request (successfully or not). */
  ghost predicate AnswersEveryMutation(api: Service) {
    forall j: nat :: api.mutations(j).Delivered?
  }

  /** The provider answers every mutating request with `success`. */
  ghost predicate AcceptsEveryMutation(api: Service) {
    forall j: nat :: api.mutations(j).Delivered? && api.mutations(j).reply.success
  }
}
