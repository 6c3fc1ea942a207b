/**
 * The captcha route: it asks the challenge generator for a question and
 * its answer, and sends the question together with a token that is the
 * Base64 of the answer's UTF-8 bytes. The login route recovers the answer
 * from the token by decoding both layers.
 */
module Captcha {
  import opened Wrappers
  import Utf8
  import Base64

  /** A generated challenge: the question to show and the answer expected back. */
  datatype Challenge = Challenge(question: string, answer: string)

  /** The route's response: 200 with question and token, or 500 "Error generando captcha". */
  datatype CaptchaResponse = Issued(question: string, token: string) | Failed

  function Status(r: CaptchaResponse): int {
    if r.Issued? then 200 else 500
  }

  /** `Buffer.from(answer).toString("base64")`. */
  function Token(answer: string): (t: string)
    ensures |t| == 4 * ((|Utf8.Encode(answer)| + 2) / 3)
    ensures Base64.Padded(t)
  {
    Base64.EncodePadded(Utf8.Encode(answer));
    Base64.Encode(Utf8.Encode(answer))
  }

  /** `Buffer.from(token, "base64").toString()`: what the login route reads out of a token. */
  function AnswerOf(token: string): string {
    Utf8.Decode(Base64.Decode(token))
  }

  /**
   * The GET handler. The generator's result is a parameter; None stands
   * for a generator that threw.
   */
  function Get(generated: Option<Challenge>): (r: CaptchaResponse)
    ensures r.Issued? <==> generated.Some?
    ensures r.Issued? ==> r.question == generated.value.question && AnswerOf(r.token) == generated.value.answer
  {
    match generated
    case None => Failed
    case Some(c) =>
      TokenRoundTrip(c.answer);
      Issued(c.question, Token(c.answer))
  }

  /** Decoding a token the way the login route does gives back the answer it was made from. */
  lemma TokenRoundTrip(answer: string)
    ensures AnswerOf(Token(answer)) == answer
  {
    Base64.DecodeEncode(Utf8.Encode(answer));
    Utf8.DecodeEncode(answer);
  }

  /** The token depends on the answer alone and tells answers apart: no key, no randomness. */
  lemma TokenInjective(a: string, b: string)
    requires Token(a) == Token(b)
    ensures a == b
  {
    TokenRoundTrip(a);
    TokenRoundTrip(b);
  }

  /** The empty token, which the login route uses when none is sent, stands for the empty answer. */
  lemma AnswerOfEmpty()
    ensures AnswerOf("") == ""
  {
  }
}
