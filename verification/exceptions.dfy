/** Exception records: the common `exception_base` and its two shapes. */
module Exceptions {
  import opened Types
  import opened Codes

  /** The fields shared by every exception (`exception_base`). `thread` is the
      originating `GThread*`, `None` standing for NULL. */
  datatype ExceptionBase = ExceptionBase(
    category: uint32,
    serialNumber: uint32,
    parentSerialNumber: uint32,
    msTimestamp: uint64,
    thread: Option<nat>,
    description: string,
    detail: string)

  /** A sender exception is the base record only; a recipient exception adds a solution. */
  datatype ExceptionRecord =
    | SenderException(base: ExceptionBase)
    | RecipientException(base: ExceptionBase, solution: string)

  /** True when the informational fields hold the constants every raise stores. */
  predicate InformationalFieldsCleared(b: ExceptionBase)
  {
    b.serialNumber == 0 && b.parentSerialNumber == 0 && b.msTimestamp == 0 && b.thread == None
  }

  /** The base record both raise functions fill in. The detail argument is
      accepted but the `detail` field receives the description. */
  function NewBase(category: uint32, description: string, detail: string): (b: ExceptionBase)
    ensures b.category == category
    ensures b.description == description && b.detail == description
    ensures InformationalFieldsCleared(b)
  {
    ExceptionBase(category, 0, 0, 0, None, description, description)
  }

  /** The record built by `ctrans_raise_sender_exception`. */
  function NewSender(category: uint32, description: string, detail: string): (e: ExceptionRecord)
    ensures e.SenderException?
    ensures e.base.category == category && e.base.description == description
    ensures e.base.detail == description
    ensures InformationalFieldsCleared(e.base)
  {
    SenderException(NewBase(category, description, detail))
  }

  /** The record built by `ctrans_raise_recipient_exception`. The category is
      meant to be a `recipEx_type` value, but any integer is stored as given. */
  function NewRecipient(category: uint32, description: string, detail: string, solution: string): (e: ExceptionRecord)
    ensures e.RecipientException?
    ensures e.base.category == category && e.base.description == description
    ensures e.base.detail == description
    ensures e.solution == solution
    ensures InformationalFieldsCleared(e.base)
  {
    RecipientException(NewBase(category, description, detail), solution)
  }

  /** The detail argument of a raise has no effect on the record. */
  lemma DetailArgumentIgnored(category: uint32, description: string,
                              detail1: string, detail2: string, solution: string)
    ensures NewSender(category, description, detail1) == NewSender(category, description, detail2)
    ensures NewRecipient(category, description, detail1, solution)
         == NewRecipient(category, description, detail2, solution)
  {
  }

  /** A recipient record is the sender record of the same category plus the solution. */
  lemma RecipientExtendsSender(category: uint32, description: string, detail: string, solution: string)
    ensures NewRecipient(category, description, detail, solution).base
         == NewSender(category, description, detail).base
    ensures NewRecipient(category, description, detail, solution)
         == RecipientException(NewSender(category, description, detail).base, solution)
  {
  }

  /** The audience of a recipient record can be read back from its type. */
  lemma RecipientAudienceRecoverable(audience: Audience, description: string, detail: string, solution: string)
    ensures AudienceOf(NewRecipient(AudienceCode(audience), description, detail, solution).base.category) == Some(audience)
  {
  }
}
