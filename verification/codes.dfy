/** The return codes of the creation point and the recipient categories of libctrans.h. */
module Codes {
  import opened Types

  /** First return from the creation point (setjmp proper). */
  const TransStart: int := 0
  /** Return to the creation point caused by ending the transaction. */
  const TransStop: int := 1
  /** Return to the creation point caused by a raised exception. */
  const ExceptionCaptured: int := 2

  /** The three outcome codes are pairwise distinct. */
  lemma OutcomeCodesDistinct()
    ensures TransStart != TransStop && TransStop != ExceptionCaptured && TransStart != ExceptionCaptured
    ensures TransStart == 0 && TransStop == 1 && ExceptionCaptured == 2
  {
  }

  /** The audience a recipient exception is addressed to (`recipEx_type`). */
  datatype Audience = User | Admin | Implementation

  /** The integer value of each `recipEx_type` enumerator. */
  function AudienceCode(a: Audience): (c: uint32)
    ensures a == User <==> c == 1100000
    ensures a == Admin <==> c == 1200000
    ensures a == Implementation <==> c == 1300000
  {
    match a
    case User => 1100000
    case Admin => 1200000
    case Implementation => 1300000
  }

  /** Reads an exception type back as an audience, if it is one of the three enumerators. */
  function AudienceOf(c: int): (r: Option<Audience>)
    ensures r.Some? <==> (c == 1100000 || c == 1200000 || c == 1300000)
  {
    if c == 1100000 then Some(User)
    else if c == 1200000 then Some(Admin)
    else if c == 1300000 then Some(Implementation)
    else None
  }

  /** Encoding an audience and reading it back gives the audience; reading a code
      that is an audience and encoding it gives the code. */
  lemma AudienceRoundTrip(a: Audience, c: int)
    ensures AudienceOf(AudienceCode(a)) == Some(a)
    ensures AudienceOf(c).Some? ==> AudienceCode(AudienceOf(c).value) == c
  {
  }

  /** Which handler the creation point runs for a given return code. */
  datatype Handler = OnStart | OnStop | OnException

  /** The dispatch of NEWTRANSACTION: exactly one handler for every return code,
      the exception handler being tested first and the start handler being the fallback. */
  function HandlerFor(code: int): (h: Handler)
    ensures h == OnException <==> code == ExceptionCaptured
    ensures h == OnStop <==> code == TransStop
    ensures h == OnStart <==> code != TransStop && code != ExceptionCaptured
  {
    if code == ExceptionCaptured then OnException
    else if code == TransStop then OnStop
    else OnStart
  }
}
