/** The unified error taxonomy of the client, the two provider error envelopes, their
    conversions into it and the `Display` text of each. */
module Errors {
  import opened Scalars
  import opened Text

  /** OpenSea's error envelope, `{"success": <bool>}`. */
  datatype OpenSeaApiError = OpenSeaApiError(success: bool)

  /** Rarible's error envelope, `{"status": <i32>, "code": <string>, "message": <string>}`. */
  datatype RaribleApiError = RaribleApiError(status: i32, code: string, message: string)

  /** The closed set of classified API failures. */
  datatype ApiError =
    | Unauthorized
    | Other(code: u16)
    | OpenSeaApiError(openSea: OpenSeaApiError)
    | RaribleServerError(rarible: RaribleApiError)

  /** `From<OpenSeaApiError> for ApiError`. */
  function FromOpenSea(e: OpenSeaApiError): (r: ApiError)
    ensures r.OpenSeaApiError? && r.openSea == e
  {
    ApiError.OpenSeaApiError(e)
  }

  /** `From<RaribleApiError> for ApiError`. */
  function FromRarible(e: RaribleApiError): (r: ApiError)
    ensures r.RaribleServerError? && r.rarible == e
  {
    RaribleServerError(e)
  }

  const STATUS_PREFIX := "status: `"

  /** `Display` for the Rarible envelope: status, code and message, each in backticks. */
  function RaribleDisplay(e: RaribleApiError): string {
    STATUS_PREFIX + (IntToDecimal(e.status) + ("`, code: `" + (e.code + ("`, message: `" + (e.message + "`")))))
  }

  /** `Display` for the unified error. */
  function Display(e: ApiError): string {
    match e
    case Unauthorized => "Unauthorized request to API"
    case Other(s) => "API reported error code " + NatToDecimal(s)
    case OpenSeaApiError(err) => "OpenSea Server success " + BoolToString(err.success)
    case RaribleServerError(err) => RaribleDisplay(err)
  }

  /** The Rarible variant shows exactly the envelope's own text. */
  lemma {:induction false} DisplayDefersToRarible(e: RaribleApiError)
    ensures Display(FromRarible(e)) == RaribleDisplay(e)
  {
  }

  /** The status is read back from the Rarible text as the piece up to the second backtick. */
  lemma {:induction false} RaribleDisplayStatus(e: RaribleApiError)
    ensures |RaribleDisplay(e)| > |STATUS_PREFIX|
    ensures RaribleDisplay(e)[..|STATUS_PREFIX|] == STATUS_PREFIX
    ensures Split(RaribleDisplay(e)[|STATUS_PREFIX|..], '`')[0] == IntToDecimal(e.status)
  {
    var d := IntToDecimal(e.status);
    var rest := ", code: `" + (e.code + ("`, message: `" + (e.message + "`")));
    assert "`, code: `" + (e.code + ("`, message: `" + (e.message + "`"))) == ['`'] + rest;
    assert RaribleDisplay(e)[|STATUS_PREFIX|..] == d + ['`'] + rest;
    assert Excludes(d, '`') by {
      var n: int := e.status;
      if n < 0 {
        assert d == "-" + NatToDecimal(-n);
      }
    }
    SplitFree(d, '`', rest);
  }

  /** Two Rarible errors that read the same carry the same status. */
  lemma {:induction false} RaribleDisplayDeterminesStatus(e: RaribleApiError, e': RaribleApiError)
    requires RaribleDisplay(e) == RaribleDisplay(e')
    ensures e.status == e'.status
  {
    RaribleDisplayStatus(e);
    RaribleDisplayStatus(e');
    IntToDecimalInjective(e.status, e'.status);
  }

  /** The texts of the first three variants tell them apart and determine what they carry:
      the numeric code of `Other` and the flag of the OpenSea envelope are recoverable. */
  lemma {:induction false} DisplayDistinguishes(e: ApiError, e': ApiError)
    requires !e.RaribleServerError? && !e'.RaribleServerError?
    requires Display(e) == Display(e')
    ensures e == e'
  {
    var d, d' := Display(e), Display(e');
    if e.Other? && e'.Other? {
      assert d[24..] == NatToDecimal(e.code) && d'[24..] == NatToDecimal(e'.code);
      NatToDecimalInjective(e.code, e'.code);
    } else if e.OpenSeaApiError? && e'.OpenSeaApiError? {
      assert d[23..] == BoolToString(e.openSea.success) && d'[23..] == BoolToString(e'.openSea.success);
    } else if e.Unauthorized? && e'.Unauthorized? {
    } else {
      FirstCharOfDisplay(e);
      FirstCharOfDisplay(e');
      assert false;
    }
  }

  lemma {:induction false} FirstCharOfDisplay(e: ApiError)
    ensures Display(e)[0] == match e
      case Unauthorized => 'U'
      case Other(_) => 'A'
      case OpenSeaApiError(_) => 'O'
      case RaribleServerError(_) => 's'
  {
  }

  /** No text of the first three variants starts the way a Rarible text does. */
  lemma {:induction false} RaribleDisplayIsDistinct(e: ApiError, r: RaribleApiError)
    requires !e.RaribleServerError?
    ensures Display(e) != Display(FromRarible(r))
  {
    FirstCharOfDisplay(e);
    FirstCharOfDisplay(FromRarible(r));
  }
}
