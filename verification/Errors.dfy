/** The reason codes a command can be refused with; each refusal aborts its whole transaction. */
module Errors {
  datatype Error =
    // affiliates
    | AFFILIATE_TERMS_INVALID
    | REFERRAL_CODE_CURRENCY_MISMATCH
    | REFERRAL_CODE_ECONOMICS_INVALID
    | REFERRAL_SELF_REFERRAL
    | CUSTOMER_NOT_FOUND
    | AFFILIATE_PAYOUT_INSUFFICIENT_AVAILABLE
    | AFFILIATE_PAYOUT_PROCESSING_LIMIT
    | AFFILIATE_PAYOUT_NOT_FOUND
    | AFFILIATE_PAYOUT_IDEMPOTENCY_CONFLICT
    | AFFILIATE_REVERSAL_REASON_INVALID
    | AFFILIATE_COMMISSION_NOT_FOUND
    | AFFILIATE_COMMISSION_ALREADY_REVERSED
    | AFFILIATE_COMMISSION_INSUFFICIENT_AVAILABLE
    // appointments
    | IDEMPOTENCY_KEY_CONFLICT
    | APPOINTMENT_RELATION_NOT_FOUND
    | APPOINTMENT_STARTS_AT_PAST
    | APPOINTMENT_SLOT_CONFLICT
    | APPOINTMENT_SLOT_UNAVAILABLE
    | APPOINTMENT_NOT_FOUND
    | APPOINTMENT_NOT_ACTIVE
    | APPOINTMENT_START_TOO_EARLY
    | APPOINTMENT_MUST_BE_STARTED
    | APPOINTMENT_NO_SHOW_TOO_EARLY
    | APPOINTMENT_NO_SHOW_NOTE_REQUIRED
    | APPOINTMENT_TRANSITION_INVALID
    | INTERVAL_NOT_MINUTE_ALIGNED
    // conversations
    | CONVERSATION_ALREADY_HUMAN
    | CONVERSATION_NOT_HUMAN
    | CONVERSATION_NOT_FOUND
    | HANDOFF_NOT_CLAIMABLE
    | HANDOFF_ASSIGNEE_INVALID
    | NOTIFICATION_IDEMPOTENCY_CONFLICT
    // a unique index refused an insert or update
    | DUPLICATE_KEY
}
