/** Identifiers of the reminder engine. All of them are strings in the bot. */
module Ids {
  /** A chat (subscriber), keyed by the decimal text of the transport's chat id. */
  type ChatId = string
  /** A proposal's native identifier (a Snapshot id or the decimal on-chain id). */
  type ProposalId = string
  /** The short token substituted for a proposal id in button payloads. */
  type ShortId = string
}
