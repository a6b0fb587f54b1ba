/** The phone validator of `src/utils/validatePhone.ts`: ten or eleven
    digits, an area code of at least 11, and a leading 9 in the subscriber
    part of eleven-digit numbers. */
module Phone {
  import opened Digits

  /** `parseInt(cleanedPhone.substring(0, 2))`. Two digits never exceed 99,
      and the code is below 11 exactly when it starts with `0` or is `10`. */
  function AreaCode(d: string): (n: nat)
    requires |d| >= 2 && AllDigits(d)
    ensures n <= 99
    ensures n < 11 <==> d[0] == '0' || (d[0] == '1' && d[1] == '0')
  {
    10 * Value(d[0]) + Value(d[1])
  }

  /** `validatePhone`, branch for branch. */
  function ValidatePhone(phone: string): (ok: bool)
    ensures ok ==> |DigitsOf(phone)| == 10 || |DigitsOf(phone)| == 11
  {
    var d := DigitsOf(phone);
    if |d| != 10 && |d| != 11 then false
    else if AreaCode(d) < 11 || AreaCode(d) > 99 then false
    else if |d| == 11 && d[2] != '9' then false
    else true
  }

  /** The accepted numbers described digit by digit: ten digits, or eleven
      whose third digit is 9; and no leading `0` or `10`. */
  predicate IsPhoneNumber(phone: string) {
    var d := DigitsOf(phone);
    && (|d| == 10 || (|d| == 11 && d[2] == '9'))
    && d[0] != '0'
    && !(d[0] == '1' && d[1] == '0')
  }

  /** `validatePhone` accepts exactly the numbers `IsPhoneNumber` describes;
      in particular its `areaCode > 99` test never rejects anything. */
  lemma ValidatePhoneIsPhoneNumber(phone: string)
    ensures ValidatePhone(phone) <==> IsPhoneNumber(phone)
  {
  }

  /** Spaces, parentheses and dashes do not matter: only the digits do. */
  lemma ValidatePhoneDigitsOnly(a: string, b: string)
    requires DigitsOf(a) == DigitsOf(b)
    ensures ValidatePhone(a) == ValidatePhone(b)
  {
  }

  lemma ValidatePhoneIgnoresPunctuation(phone: string)
    ensures ValidatePhone(phone) == ValidatePhone(DigitsOf(phone))
  {
    DigitsOfIdempotent(phone);
  }

  /** A ten-digit number places no constraint on its third digit. */
  lemma TenDigitThirdDigitIsFree(d: string, c: char)
    requires |d| == 10 && AllDigits(d) && IsDigit(c)
    ensures ValidatePhone(d[2 := c]) == ValidatePhone(d)
  {
    DigitsOfAllDigits(d);
    DigitsOfAllDigits(d[2 := c]);
  }

  /** An eleven-digit number is rejected whenever its third digit is not 9. */
  lemma ElevenDigitsNeedNine(d: string)
    requires |d| == 11 && AllDigits(d) && d[2] != '9'
    ensures !ValidatePhone(d)
  {
    DigitsOfAllDigits(d);
  }

  lemma ValidatePhoneOfDigits(d: string)
    requires AllDigits(d)
    ensures ValidatePhone(d) <==>
      (|d| == 10 || (|d| == 11 && d[2] == '9')) && d[0] != '0' && !(d[0] == '1' && d[1] == '0')
  {
    DigitsOfAllDigits(d);
  }
}
