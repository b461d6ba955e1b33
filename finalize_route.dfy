/**
 * The finalize endpoint (src/app/api/finalize/route.ts): it refuses a body
 * whose `services` is missing, not an array or empty, and otherwise reports
 * success with a message that states how many entries the array had.
 */
module FinalizeRoute {
  import opened Wrappers

  /** The value found under the `services` key of an object body. */
  datatype ServicesValue = Absent | NonArray | Array(items: seq<string>)

  /**
   * The request body: not JSON at all; the JSON literal `null`, which the
   * destructuring `const { services } = …` cannot read; or any other JSON
   * value, from which `services` is read (a non-object value has no such key).
   */
  datatype Body = Unparsable | NullBody | Value(services: ServicesValue)

  /** The JSON written back: each of the three keys may be absent. */
  datatype Response = Response(status: nat, success: Option<bool>, message: Option<string>, error: Option<string>)

  const NoServicesMessage := "No services provided."
  const GenericError := "An unexpected error occurred."
  const SuccessPrefix := "Successfully finalized "
  const SuccessSuffix := " services. Check the server console for details."

  predicate IsDigit(c: char)
  {
    '0' <= c <= '9'
  }

  predicate AllDigits(s: string)
  {
    forall i :: 0 <= i < |s| ==> IsDigit(s[i])
  }

  /** The decimal notation of `n`, as a template literal prints it. */
  function Decimal(n: nat): (r: string)
    ensures |r| >= 1 && AllDigits(r)
    ensures n > 0 ==> r[0] != '0'
    ensures |r| > 1 ==> r[0] != '0'
    decreases n
  {
    var digit := ('0' as int + n % 10) as char;
    if n < 10 then [digit] else Decimal(n / 10) + [digit]
  }

  /** The number a string of decimal digits denotes. */
  function ParseDecimal(s: string): nat
    requires AllDigits(s)
  {
    if s == [] then 0
    else ParseDecimal(s[..|s| - 1]) * 10 + (s[|s| - 1] as int - '0' as int)
  }

  /** Reading back a rendered count gives the count. */
  lemma {:induction false} ParseDecimalOfDecimal(n: nat)
    ensures ParseDecimal(Decimal(n)) == n
    decreases n
  {
    var d := Decimal(n);
    if n >= 10 {
      ParseDecimalOfDecimal(n / 10);
      assert d[..|d| - 1] == Decimal(n / 10);
    }
  }


  /** The count a success message reports, if the text has the success message's form. */
  function ReportedCount(message: string): Option<nat>
  {
    if |message| > |SuccessPrefix| + |SuccessSuffix|
       && message[..|SuccessPrefix|] == SuccessPrefix
       && message[|message| - |SuccessSuffix|..] == SuccessSuffix
       && AllDigits(message[|SuccessPrefix|..|message| - |SuccessSuffix|])
    then Some(ParseDecimal(message[|SuccessPrefix|..|message| - |SuccessSuffix|]))
    else None
  }

  /** Text built from the prefix, a rendered count and the suffix reports exactly that count. */
  lemma SuccessMessageReportsCount(count: nat)
    ensures ReportedCount(SuccessPrefix + Decimal(count) + SuccessSuffix) == Some(count)
  {
    var d := Decimal(count);
    var m := SuccessPrefix + d + SuccessSuffix;
    assert m == SuccessPrefix + d + SuccessSuffix;
    assert m[..|SuccessPrefix|] == SuccessPrefix;
    assert m[|m| - |SuccessSuffix|..] == SuccessSuffix;
    assert m[|SuccessPrefix|..|m| - |SuccessSuffix|] == d;
    ParseDecimalOfDecimal(count);
  }

  /** The success message for an array of `count` entries: it reports that count. */
  function SuccessMessage(count: nat): (r: string)
    ensures ReportedCount(r) == Some(count)
  {
    SuccessMessageReportsCount(count);
    SuccessPrefix + Decimal(count) + SuccessSuffix
  }

  /**
   * The request the handler accepts: a non-empty array under `services`.
   * Among bodies that parse to a non-null value, the rejected ones are
   * exactly those the guard `!services || !Array.isArray(services) ||
   * services.length === 0` names.
   */
  predicate Accepted(body: Body)
    ensures body.Value? ==>
              (!Accepted(body) <==>
                 body.services.Absent? || body.services.NonArray? || (body.services.Array? && body.services.items == []))
  {
    body.Value? && body.services.Array? && |body.services.items| > 0
  }

  /** The handler `POST`. */
  function Post(body: Body): (r: Response)
    ensures r.status == 200 <==> Accepted(body)
    ensures r.success == Some(true) <==> Accepted(body)
    ensures Accepted(body) ==> r.message.Some? && ReportedCount(r.message.value) == Some(|body.services.items|)
    ensures Accepted(body) ==> r.error.None?
    ensures r.status == 400 <==> body.Value? && !Accepted(body)
    ensures r.status == 400 ==> r == Response(400, None, Some(NoServicesMessage), None)
    ensures r.status == 500 <==> !body.Value?
    ensures r.status == 500 ==> r == Response(500, None, None, Some(GenericError))
  {
    match body
    case Unparsable => Response(500, None, None, Some(GenericError))
    case NullBody => Response(500, None, None, Some(GenericError))
    case Value(services) =>
      if !services.Array? || |services.items| == 0 then
        Response(400, None, Some(NoServicesMessage), None)
      else
        Response(200, Some(true), Some(SuccessMessage(|services.items|)), None)
  }

  /** Duplicates are counted: the same title sent twice is reported as two services. */
  lemma DuplicatesCounted(title: string)
    ensures Post(Value(Array([title, title]))).message == Some(SuccessMessage(2))
    ensures ReportedCount(Post(Value(Array([title, title]))).message.value) == Some(2)
  {
  }
}
