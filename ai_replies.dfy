/**
 * The hosted text-completion call, seen from its callers: it either
 * resolves with a response whose `text` is a string (possibly empty) or
 * absent, or it throws an error with a message.
 */
module AiReplies {
  datatype AiReply = Answered(text: string) | NoText | Failed(message: string)
}
